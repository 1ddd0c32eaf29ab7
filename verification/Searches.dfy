/** A search from its request, through its answer, to the observation it ends in. */
module Searches {
  import opened Prelude
  import opened Events
  import opened Rules
  import opened ExecutiveModel
  import opened Ranking
  import opened Rounding
  import P = PerceptionModel

  // ---------------------------------------------------------------- asking

  /** A request for spending, under the digest of what is asked; the last window of searches did not find too little. */
  predicate Asks(r: Reaction<XState>, s: XState, id: string, c: Candidate) {
    && r.published == [OfExecutive(ResearchSpendRequested(id, c.deliberationId, "research", c.cost, c.depth))]
    && r.state.research.pending == s.research.pending[id := Intent(id, c.query, c.cost, c.depth, c.priority, c.deliberationId)]
    && r.state.decisions == s.decisions && r.state.clusters == s.clusters && r.state.stores == s.stores
  }

  /** Nothing is asked, and that is on record. */
  predicate Holds(r: Reaction<XState>, s: XState, c: Candidate) {
    r == Reaction(s.(decisions := s.decisions + [SoftStopped(c.deliberationId)]), [])
  }

  /** A search counts toward a window of five; a full one leaves the share of its searches that found something new. */
  predicate Counts(before: Research, after: Research) {
    if before.issued + 1 < 5 then after.issued == before.issued + 1 && after.novel == before.novel && after.lastRate == before.lastRate
    else after.issued == 0 && after.novel == 0 && after.lastRate.Some? && IsShare(after.lastRate.value, before.novel, before.issued + 1)
  }

  /** The share of some in all, to six places. */
  predicate IsShare(rate: real, some: nat, all: nat)
    requires all > 0
  {
    some as real / all as real - 0.0000005 <= rate <= some as real / all as real + 0.0000005
  }

  lemma RateIsShare(novel: nat, issued: nat)
    requires issued > 0
    ensures IsShare(Rate(novel, issued), novel, issued)
  {
  }

  /** A search is asked for unless the last full window of five found something new less than one time in five. */
  lemma SearchIsRequested(n: Notation, s: XState, c: Candidate)
    ensures var r, rate := RequestResearch(n, s, c), s.research.lastRate;
            if rate.Some? && rate.value < 0.2 then Holds(r, s, c)
            else Asks(r, s, n.requestId(c.deliberationId, c.query, c.depth), c) && Counts(s.research, r.state.research)
  {
    hide By, Rate, IsShare;
    RateIsShare(s.research.novel, s.research.issued + 1);
  }

  // ---------------------------------------------------------------- the answer

  /** The stores after a list of events, the first of them delivery number `tick`. */
  ghost function Advanced(n: Notation, s: XState, events: seq<Event>, tick: nat): XState {
    if events == [] then s
    else var k := |events| - 1; Step(n, Advanced(n, s, events[..k], tick), events[k], tick + k).state
  }

  predicate Answers(p: Payload, id: string) {
    p.OfGovernor? && (p.g.ResearchSpendApproved? || p.g.ResearchSpendDenied?) && p.g.requestId == id
  }

  /** The search asked for under an id, as long as it is unanswered. */
  function Unanswered(s: XState, events: seq<Event>, id: string): Option<Intent> {
    if events == [] then Lookup(s.research.pending, id)
    else if Answers(events[|events| - 1].body, id) then None
    else Unanswered(s, events[..|events| - 1], id)
  }

  /** No process starts meanwhile. */
  predicate Underway(events: seq<Event>) {
    forall e <- events :: !(e.body.OfKernel? && e.body.k.Started?)
  }

  lemma StepAnswers(n: Notation, s: XState, e: Event, tick: nat, id: string)
    requires !(e.body.OfKernel? && e.body.k.Started?)
    ensures Lookup(Step(n, s, e, tick).state.research.pending, id) == if Answers(e.body, id) then None else Lookup(s.research.pending, id)
  {
    hide Generate, Cluster, Pursue, FirstGeneration, Recorded, Situation, OnBelief, By;
    if e.body.OfExecutive? && e.body.x.GenerationCompleted? { CompletionsLeaveSearches(n, s, e.body.x, e.time, tick); }
  }

  lemma CompletionsLeaveSearches(n: Notation, s: XState, x: ExecutiveEvent, time: real, tick: nat)
    requires x.GenerationCompleted?
    ensures OnGenerationCompleted(n, s, x, time, tick).state.research.pending == s.research.pending
  {
    hide FirstGeneration, Recorded, Valued, PlanFor, By;
  }

  lemma {:induction false} SearchesWait(n: Notation, s: XState, events: seq<Event>, tick: nat, id: string)
    requires Underway(events)
    ensures Lookup(Advanced(n, s, events, tick).research.pending, id) == Unanswered(s, events, id)
  {
    hide Step;
    if events != [] {
      var k := |events| - 1;
      assert events[k] in events && forall e <- events[..k] :: e in events;
      SearchesWait(n, s, events[..k], tick, id);
      StepAnswers(n, Advanced(n, s, events[..k], tick), events[k], tick + k, id);
    }
  }

  /**
   After any events, an approval of a search that is still unanswered lets the search out as it was asked for, at the approved
   cost; an approval of anything else, and a denial, lets nothing out.
   */
  lemma ApprovedSearchIsIntended(n: Notation, s: XState, events: seq<Event>, tick: nat, e: Event, id: string)
    requires Underway(events) && Answers(e.body, id)
    ensures var ps := Step(n, Advanced(n, s, events, tick), e, tick + |events|).published;
            match Unanswered(s, events, id)
            case Some(intent) =>
              ps == if e.body.g.ResearchSpendApproved? then [OfExecutive(ResearchIntent(id, intent.query, e.body.g.cost, intent.depth, intent.priority))] else []
            case None => ps == []
  {
    hide Advanced, By, OnKernelStarted, OnWorldModel, OnOwn, OnOutcomeRecorded;
    SearchesWait(n, s, events, tick, id);
  }

  // ---------------------------------------------------------------- the report

  /** An intent registers a sensor of its own, which reports one observation, at even odds. */
  lemma IntentIsObserved(s: P.PState, e: Event, id: string)
    requires e.body.OfExecutive? && e.body.x.ResearchIntent? && e.body.x.requestId == id
    ensures var r, sensor := P.Step(s, e), "research:" + id;
            && r.published == [OfPerception(ObservationCreated(sensor, "1.0", 0.5))]
            && r.state == P.PState(s.sensors + {sensor}, s.observations + [P.Observation(sensor, "1.0", 0.5)], s.intents + [id])
  {
  }

  // ---------------------------------------------------------------- cold start

  predicate IsSeed(p: Payload, n: Notation, query: string) {
    p == OfExecutive(ResearchSpendRequested(n.requestId("cold-start", query, 1), "cold-start", "research", 5.0, 1))
  }

  lemma SeedsAreRanked()
    ensures ByWorth(Seeds(), PriorityOf) == Seeds()
  {
    var seeds, r, order := Seeds(), ByWorth(Seeds(), PriorityOf), Order(Seeds(), PriorityOf);
    RankingRanks(seeds, PriorityOf);
    hide ByWorth, Order;
    assert PriorityOf(seeds[0]) == 3.0 && PriorityOf(seeds[1]) == 2.0 && PriorityOf(seeds[2]) == 1.0;
    assert r[0] == seeds[order[0]] && r[1] == seeds[order[1]] && r[2] == seeds[order[2]];
  }

  /** Three requests in a fresh window. */
  lemma ThreeAreAsked(n: Notation, s: XState, cs: seq<Candidate>)
    requires |cs| == 3 && s.research == Research(map[], 0, 0, None)
    ensures var r := RequestAll(n, s, cs);
            r.published == RequestResearch(n, s, cs[0]).published + RequestResearch(n, s, cs[1]).published + RequestResearch(n, s, cs[2]).published
            && r.state.decisions == s.decisions
  {
    hide By, Rate;
    var s1 := RequestResearch(n, s, cs[0]).state;
    var s2 := RequestResearch(n, s1, cs[1]).state;
    assert cs[1..][0] == cs[1] && cs[1..][1..][0] == cs[2] && cs[1..][1..][1..] == [];
    assert RequestResearch(n, s1, cs[1]).published == RequestResearch(n, s, cs[1]).published;
    assert RequestResearch(n, s2, cs[2]).published == RequestResearch(n, s, cs[2]).published;
    LastOfAll(n, s2, cs[1..][1..]);
  }

  lemma LastOfAll(n: Notation, s: XState, cs: seq<Candidate>)
    requires |cs| == 1
    ensures RequestAll(n, s, cs) == RequestResearch(n, s, cs[0])
  {
    hide By, RequestResearch;
    var r := RequestResearch(n, s, cs[0]);
    assert RequestAll(n, r.state, cs[1..]) == Reaction(r.state, []);
    assert r.published + [] == r.published;
  }

  /** The first start of all, with nothing believed yet, asks for its three searches, the most urgent first; no later start asks. */
  lemma ColdStartIsOnce(n: Notation, s: XState, e: Event, tick: nat)
    requires e.body == OfKernel(KernelEvent.Started)
    ensures var r, cold := Step(n, s, e, tick), SeededColdStart !in s.decisions && s.clusters.confidence == map[];
            && (!cold ==> r == Reaction(s, []))
            && (cold ==> SeededColdStart in r.state.decisions)
            && (cold && s.research == Research(map[], 0, 0, None) ==>
                  && |r.published| == 3 && IsSeed(r.published[0], n, "emerging profitable online business models 2026")
                  && IsSeed(r.published[1], n, "underserved niche markets with low startup cost")
                  && IsSeed(r.published[2], n, "recurring-revenue business models a solo operator can run"))
  {
    hide By, RequestAll, ByWorth, Rate;
    SeedsAreRanked();
    if s.research == Research(map[], 0, 0, None) { ThreeAreAsked(n, s, Seeds()); }
  }
}
