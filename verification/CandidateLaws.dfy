// The outcome of federated routing, over the candidates and answers themselves.

module CandidateLaws {
  import opened Prelude
  import opened Candidates

  /** The candidate is an upstream one, and for the requested domain if there is one. */
  predicate Concerns(r: Request, i: nat)
    requires i < |r.candidates|
  {
    r.candidates[i].upstream && (r.domain.Some? ==> r.normalize(r.candidates[i].domain) == r.domain.value)
  }

  /** Candidate j is the first of those concerned that meets an authorizer. */
  predicate AskedFirst(r: Request, j: nat)
    requires |r.answers| == |r.candidates| && j < |r.candidates|
  {
    Concerns(r, j) && r.answers[j].enabled && forall l :: 0 <= l < j ==> !(Concerns(r, l) && r.answers[l].enabled)
  }

  /** The previous hop is the one the caller named, or else the requesting Broker's domain when it was first asked for. */
  ghost predicate Previous(r: Request, i: nat, p: string)
    requires |r.answers| == |r.candidates| && i < |r.candidates|
  {
    || r.previous == Some(p)
    || (r.previous.None? && exists j :: 0 <= j <= i && AskedFirst(r, j) && r.answers[j].source == Some(p))
  }

  /** An authorizer is there and refuses, or has no previous hop to ask about. */
  ghost predicate Refused(r: Request, i: nat)
    requires |r.answers| == |r.candidates| && i < |r.candidates|
  {
    r.answers[i].enabled && !(r.answers[i].allowed && exists p :: Previous(r, i, p) && r.normalize(p) != "")
  }

  /** An authorizer allowed the hop, but the candidate's domain is active no more. */
  ghost predicate Lost(r: Request, i: nat)
    requires |r.answers| == |r.candidates| && i < |r.candidates|
  {
    r.answers[i].enabled && !Refused(r, i)
    && forall k :: 0 <= k < |r.answers[i].active| ==> r.normalize(r.answers[i].active[k]) != r.normalize(r.candidates[i].domain)
  }

  /** The requesting Broker has no domain, and this is where that is found. */
  predicate SourceMissing(r: Request, i: nat)
    requires |r.answers| == |r.candidates| && i < |r.candidates|
  {
    r.previous.None? && AskedFirst(r, i) && r.answers[i].source.None?
  }

  ghost predicate Goes(r: Request, i: nat)
    requires |r.answers| == |r.candidates| && i < |r.candidates|
  {
    Concerns(r, i) && !SourceMissing(r, i) && (r.remote ==> r.answers[i].liveAfterHop) && !Refused(r, i) && !Lost(r, i)
  }

  /** The search ends at this candidate, with this outcome. */
  ghost predicate EndsAt(r: Request, i: nat, o: Outcome)
    requires |r.answers| == |r.candidates| && i < |r.candidates|
  {
    match o
    case NoSourceDomain => SourceMissing(r, i)
    case Abandoned =>
      && r.remote && Concerns(r, i) && !SourceMissing(r, i)
      && (!r.answers[i].liveAfterHop || (Goes(r, i) && !r.answers[i].liveAfterAcquire))
    case Forwarded(k, stream) =>
      k == i && Goes(r, i) && (r.remote ==> r.answers[i].liveAfterAcquire) && r.answers[i].acquired == Some(stream)
    case _ => false
  }

  /** The search goes on behind this candidate: it is not concerned, refused or lost, or gives no stream. */
  ghost predicate PassedOver(r: Request, i: nat)
    requires |r.answers| == |r.candidates| && i < |r.candidates|
  {
    Concerns(r, i) ==>
      && !SourceMissing(r, i) && (r.remote ==> r.answers[i].liveAfterHop)
      && (Refused(r, i) || Lost(r, i) || ((r.remote ==> r.answers[i].liveAfterAcquire) && r.answers[i].acquired.None?))
  }

  /** Without a requested domain, two upstream candidates have different ones. */
  predicate Ambiguity(r: Request) {
    && r.domain.None?
    && exists i, j :: 0 <= i < j < |r.candidates| && r.candidates[i].upstream && r.candidates[j].upstream
                      && r.normalize(r.candidates[i].domain) != r.normalize(r.candidates[j].domain)
  }

  ghost predicate AllPassedOver(r: Request)
    requires |r.answers| == |r.candidates|
  {
    forall i :: 0 <= i < |r.candidates| ==> PassedOver(r, i)
  }

  /** The outcome the fields call for. */
  ghost predicate Calls(r: Request, o: Outcome)
    requires |r.answers| == |r.candidates|
  {
    if Ambiguity(r) then o == Ambiguous
    else
      match o
      case Ambiguous => false
      case NotFederated => forall i :: 0 <= i < |r.candidates| ==> !Concerns(r, i)
      case AuthorizationDenied =>
        AllPassedOver(r) && exists i :: 0 <= i < |r.candidates| && Concerns(r, i) && Refused(r, i)
      case Unavailable =>
        && AllPassedOver(r) && (exists i :: 0 <= i < |r.candidates| && Concerns(r, i))
        && forall i :: 0 <= i < |r.candidates| && Concerns(r, i) ==> !Refused(r, i)
      case _ =>
        exists k :: 0 <= k < |r.candidates| && EndsAt(r, k, o) && forall j :: 0 <= j < k ==> PassedOver(r, j)
  }

  // ---------------------------------------------------------------- one candidate

  lemma MatchesConcerns(r: Request, i: nat)
    requires i < |r.candidates|
    ensures Matches(r, i) <==> Concerns(r, i)
  {}

  lemma LooksUpFirst(r: Request, i: nat)
    requires |r.answers| == |r.candidates| && i < |r.candidates|
    ensures LooksUp(r, i) <==> r.previous.None? && AskedFirst(r, i)
  {
    hide Matches, Concerns;
    forall j: nat | j <= i ensures Matches(r, j) <==> Concerns(r, j) { MatchesConcerns(r, j); }
  }

  lemma {:induction false} PreviousIs(r: Request, i: nat)
    requires |r.answers| == |r.candidates| && i < |r.candidates|
    ensures PreviousAt(r, i).Some? ==> Previous(r, i, PreviousAt(r, i).value)
    ensures forall p :: Previous(r, i, p) ==> PreviousAt(r, i) == Some(p)
  {
    hide Concerns, AskedFirst, LooksUp;
    LooksUpFirst(r, i);
    if r.previous.None? {
      if LooksUp(r, i) {
        FirstIsOne(r, i);
        assert r.answers[i].source.Some? ==> Previous(r, i, r.answers[i].source.value);
      } else if i > 0 {
        PreviousIs(r, i - 1);
        forall p ensures Previous(r, i, p) <==> Previous(r, i - 1, p) {}
      }
    }
  }

  lemma FirstIsOne(r: Request, i: nat)
    requires |r.answers| == |r.candidates| && i < |r.candidates| && AskedFirst(r, i)
    ensures forall j :: 0 <= j < |r.candidates| && AskedFirst(r, j) ==> j == i
  {
    hide Concerns;
    forall j | 0 <= j < |r.candidates| && AskedFirst(r, j) ensures j == i {}
  }

  lemma HopIs(r: Request, i: nat)
    requires |r.answers| == |r.candidates| && i < |r.candidates|
    ensures HopAt(r, i).Denied? <==> Refused(r, i)
    ensures HopAt(r, i).RouteLost? <==> Lost(r, i)
    ensures Passes(r, i) <==> !Refused(r, i) && !Lost(r, i)
  {
    hide Concerns, AskedFirst, LooksUp, PreviousAt, Previous;
    PreviousIs(r, i);
    if PreviousAt(r, i).Some? { assert Previous(r, i, PreviousAt(r, i).value); }
  }

  lemma StopIs(r: Request, i: nat)
    requires |r.answers| == |r.candidates| && i < |r.candidates|
    ensures forall o :: StopAt(r, i) == Some(o) <==> EndsAt(r, i, o)
    ensures StopAt(r, i).None? <==> PassedOver(r, i)
  {
    hide Matches, Concerns, AskedFirst, LooksUp, HopAt, Passes, Refused, Lost;
    MatchesConcerns(r, i);
    LooksUpFirst(r, i);
    HopIs(r, i);
    FirstConcerns(r, i);
  }

  lemma FirstConcerns(r: Request, i: nat)
    requires |r.answers| == |r.candidates| && i < |r.candidates|
    ensures AskedFirst(r, i) ==> Concerns(r, i)
  {}

  // ---------------------------------------------------------------- the whole search

  lemma AmbiguityIs(r: Request)
    ensures IsAmbiguous(r) <==> Ambiguity(r)
  {}

  /** The loops' outcome is the one the fields call for: both directions, for every request. */
  lemma OutcomeExactly(r: Request, o: Outcome)
    requires Valid(r)
    ensures Is(r, o) <==> Calls(r, o)
  {
    hide Matches, Concerns, HopAt, Passes, Refused, StopAt, EndsAt, PassedOver, IsAmbiguous, Ambiguity;
    AmbiguityIs(r);
    forall i: nat | i < |r.candidates|
      ensures Matches(r, i) <==> Concerns(r, i)
      ensures HopAt(r, i).Denied? <==> Refused(r, i)
      ensures StopAt(r, i).None? <==> PassedOver(r, i)
      ensures forall p :: StopAt(r, i) == Some(p) <==> EndsAt(r, i, p)
    {
      MatchesConcerns(r, i);
      HopIs(r, i);
      StopIs(r, i);
      NotConcernedIsPassed(r, i);
    }
    assert NeverStops(r) <==> AllPassedOver(r);
    if !IsAmbiguous(r) { CallsIfEnded(r, o); }
  }

  lemma NotConcernedIsPassed(r: Request, i: nat)
    requires |r.answers| == |r.candidates| && i < |r.candidates|
    ensures !Concerns(r, i) ==> PassedOver(r, i)
    ensures forall o :: EndsAt(r, i, o) ==> o.NoSourceDomain? || o.Abandoned? || o.Forwarded?
  {
    hide Concerns;
  }

  lemma CallsIfEnded(r: Request, o: Outcome)
    requires Valid(r) && !IsAmbiguous(r) && !Ambiguity(r) && (NeverStops(r) <==> AllPassedOver(r))
    requires forall i: nat :: i < |r.candidates| ==>
               && (Matches(r, i) <==> Concerns(r, i)) && (HopAt(r, i).Denied? <==> Refused(r, i))
               && (StopAt(r, i).None? <==> PassedOver(r, i))
    requires forall i: nat, p :: i < |r.candidates| ==> (StopAt(r, i) == Some(p) <==> EndsAt(r, i, p))
    ensures Is(r, o) <==> Calls(r, o)
  {
    hide Matches, Concerns, HopAt, Passes, Refused, StopAt, EndsAt, PassedOver, IsAmbiguous, Ambiguity;
    forall i: nat | i < |r.candidates| ensures !Concerns(r, i) ==> PassedOver(r, i) { NotConcernedIsPassed(r, i); }
    forall i: nat, p | i < |r.candidates| && EndsAt(r, i, p) ensures p.NoSourceDomain? || p.Abandoned? || p.Forwarded? { NotConcernedIsPassed(r, i); }
    assert AnyDenied(r) <==> exists i :: 0 <= i < |r.candidates| && Concerns(r, i) && Refused(r, i);
    assert AnyMatch(r) <==> exists i :: 0 <= i < |r.candidates| && Concerns(r, i);
    if NeverStops(r) {
      forall k: nat, p | k < |r.candidates| ensures !EndsAt(r, k, p) { assert StopAt(r, k).None?; }
    } else {
      hide AnyDenied, AnyMatch;
      if o.NotFederated? || o.AuthorizationDenied? || o.Unavailable? || o.Ambiguous? {
        forall k: nat | FirstStop(r, k) ensures StopAt(r, k) != Some(o) {}
        var i :| 0 <= i < |r.candidates| && !PassedOver(r, i);
        assert Concerns(r, i);
      } else {
        if k: nat :| FirstStop(r, k) && StopAt(r, k) == Some(o) { assert EndsAt(r, k, o); }
        if k :| 0 <= k < |r.candidates| && EndsAt(r, k, o) && forall j :: 0 <= j < k ==> PassedOver(r, j) { assert FirstStop(r, k); }
      }
    }
  }

  /** A request with a domain goes to no other one. */
  lemma ForwardedWithinDomain(r: Request, k: nat, stream: nat)
    requires Valid(r) && Is(r, Forwarded(k, stream))
    ensures k < |r.candidates| && r.candidates[k].upstream && r.answers[k].acquired == Some(stream)
    ensures r.domain.Some? ==> r.normalize(r.candidates[k].domain) == r.domain.value
    ensures forall j :: 0 <= j < k && Concerns(r, j) ==> Refused(r, j) || Lost(r, j) || r.answers[j].acquired.None?
  {
    OutcomeExactly(r, Forwarded(k, stream));
    hide Refused, Lost, SourceMissing, Is;
    var i :| 0 <= i < |r.candidates| && EndsAt(r, i, Forwarded(k, stream)) && forall j :: 0 <= j < i ==> PassedOver(r, j);
    assert i == k && Concerns(r, k);
    forall j | 0 <= j < k && Concerns(r, j) ensures Refused(r, j) || Lost(r, j) || r.answers[j].acquired.None? {
      assert PassedOver(r, j);
    }
  }
}
