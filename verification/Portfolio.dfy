/** What the Executive keeps of opportunities and plans is what it announced. */
module Portfolio {
  import opened Prelude
  import opened Rounding
  import opened Events
  import opened Rules
  import opened Ranking
  import opened ExecutiveModel
  import S = Searches

  /** What the Executive publishes over a list of events, in order. */
  ghost function Announced(n: Notation, s: XState, events: seq<Event>, tick: nat): seq<Payload> {
    if events == [] then []
    else
      var k := |events| - 1;
      Announced(n, s, events[..k], tick) + Step(n, S.Advanced(n, s, events[..k], tick), events[k], tick + k).published
  }

  function PlanIn(p: Payload): Option<Plan> {
    match p
    case OfExecutive(PlanProposed(id, opportunity, value, attention, capital, actions)) => Some(Plan(id, opportunity, actions, value, attention, capital))
    case _ => None
  }

  function PlanIdIn(p: Payload): Option<Id> {
    if PlanIn(p).Some? then Some(PlanIn(p).value.id) else None
  }

  /** An opportunity's id, value and confidence, as it is scored. */
  datatype Score = Score(id: Id, value: real, confidence: real)

  function ScoreIn(p: Payload): Option<Score> {
    match p
    case OfExecutive(OpportunityScored(id, value, confidence)) => Some(Score(id, value, confidence))
    case _ => None
  }

  /** And the beliefs it is made of, as it is identified. */
  function MakingIn(p: Payload): Option<(Id, seq<string>)> {
    match p
    case OfExecutive(OpportunityIdentified(id, beliefIds, _)) => Some((id, beliefIds))
    case _ => None
  }

  function ScoreOf(o: Opportunity): Option<Score> { Some(Score(o.id, o.value, o.confidence)) }
  function MakingOf(o: Opportunity): Option<(Id, seq<string>)> { Some((o.id, o.beliefIds)) }

  /** What is kept has grown by what was announced; every plan proposed waits for deliberation. */
  ghost predicate Keeps(s: Stores, s': Stores, ps: seq<Payload>) {
    && s'.plans == s.plans + Project(ps, PlanIn)
    && s'.pendingPlans == s.pendingPlans + Project(ps, PlanIdIn)
    && Project(s'.opportunities, ScoreOf) == Project(s.opportunities, ScoreOf) + Project(ps, ScoreIn)
    && Project(s'.opportunities, MakingOf) == Project(s.opportunities, MakingOf) + Project(ps, MakingIn)
  }

  /** The group, the plan and the decisions an accepted pass leaves on record. */
  predicate Recorded(s: XState, s': XState, x: ExecutiveEvent, plan: Id)
    requires x.GenerationCompleted? && x.groupId.Some? && x.opportunity.Some?
  {
    && s'.stores.groups == s.stores.groups + [Group(x.groupId.value, x.signature, x.beliefIds, x.confidence)]
    && s'.decisions == s.decisions + [IdentifiedOpportunity(x.opportunity.value), ScoredOpportunity(x.opportunity.value), Decision.ProposedPlan(plan)]
  }

  lemma PursuitKeeps(n: Notation, s: XState, x: ExecutiveEvent, tick: nat)
    requires x.GenerationCompleted? && x.groupId.Some? && x.opportunity.Some?
    ensures var r := Pursue(n, s, x, tick);
            && Keeps(s.stores, r.state.stores, r.published) && |Project(r.published, PlanIdIn)| == 1
            && Recorded(s, r.state, x, Project(r.published, PlanIdIn)[0])
  {
    hide Round4, By, Project;
    var r := Pursue(n, s, x, tick);
    var ps := r.published;
    assert ps == [ps[0]] + [ps[1]] + [ps[2]];
    ProjectThree(ps[0], ps[1], ps[2], PlanIn);
    ProjectThree(ps[0], ps[1], ps[2], PlanIdIn);
    ProjectThree(ps[0], ps[1], ps[2], ScoreIn);
    ProjectThree(ps[0], ps[1], ps[2], MakingIn);
    var o := r.state.stores.opportunities[|s.stores.opportunities|];
    ProjectSnoc(s.stores.opportunities, o, ScoreOf);
    ProjectSnoc(s.stores.opportunities, o, MakingOf);
  }

  lemma ProjectThree<U>(a: Payload, b: Payload, c: Payload, f: Payload -> Option<U>)
    ensures Project([a] + [b] + [c], f) == Image(f, a) + Image(f, b) + Image(f, c)
  {
    ProjectSnoc([a] + [b], c, f);
    ProjectSnoc([a], b, f);
    ProjectOne(a, f);
  }

  predicate AnnouncesNothing(ps: seq<Payload>) {
    forall p <- ps :: PlanIn(p) == None && ScoreIn(p) == None && MakingIn(p) == None
  }

  predicate SameStores(s: Stores, s': Stores) {
    s'.plans == s.plans && s'.pendingPlans == s.pendingPlans && s'.opportunities == s.opportunities
  }

  lemma NothingKept(s: Stores, s': Stores, ps: seq<Payload>)
    requires SameStores(s, s') && AnnouncesNothing(ps)
    ensures Keeps(s, s', ps)
  {
    ProjectNothing(ps, PlanIn);
    ProjectNothing(ps, PlanIdIn);
    ProjectNothing(ps, ScoreIn);
    ProjectNothing(ps, MakingIn);
    hide Project;
    assert s.plans + [] == s.plans && s.pendingPlans + [] == s.pendingPlans;
    assert Project(s.opportunities, ScoreOf) + [] == Project(s.opportunities, ScoreOf);
    assert Project(s.opportunities, MakingOf) + [] == Project(s.opportunities, MakingOf);
  }

  lemma PassKeeps(n: Notation, c: Clusters, x: ExecutiveEvent, beliefIds: seq<string>, tick: nat)
    requires x.GenerationStarted?
    ensures AnnouncesNothing(Generate(n, c, x, beliefIds, tick).published)
  {
    hide Confidences, AggregateConfidence, By;
  }

  lemma {:induction false} RequestsKeep(n: Notation, s: XState, cs: seq<Candidate>)
    ensures var r := RequestAll(n, s, cs); r.state.stores == s.stores && AnnouncesNothing(r.published)
    decreases |cs|
  {
    hide By;
    if cs != [] { RequestsKeep(n, RequestResearch(n, s, cs[0]).state, cs[1..]); }
  }

  lemma CompletionKeeps(n: Notation, s: XState, x: ExecutiveEvent, time: real, tick: nat)
    requires x.GenerationCompleted?
    ensures var r := OnGenerationCompleted(n, s, x, time, tick); Keeps(s.stores, r.state.stores, r.published)
  {
    hide Pursue, FirstGeneration, ExecutiveModel.Recorded, By, Project, Keeps, Recorded;
    var first := FirstGeneration(s.stores.generations, x.generationId);
    if first.Some? && x.accepted && x.groupId.Some? && x.opportunity.Some? {
      var s1 := s.(stores := s.stores.(generations := s.stores.generations + [ExecutiveModel.Recorded(x, first.value.started, time)]));
      PursuitKeeps(n, s1.(research := s1.research.(novel := s1.research.novel + 1)), x, tick);
      LedgerApart(s.stores, s1.stores, Pursue(n, s1.(research := s1.research.(novel := s1.research.novel + 1)), x, tick).state.stores,
                  OnGenerationCompleted(n, s, x, time, tick).published);
    } else {
      NothingKept(s.stores, OnGenerationCompleted(n, s, x, time, tick).state.stores, []);
    }
  }

  lemma LedgerApart(s: Stores, s1: Stores, s': Stores, ps: seq<Payload>)
    requires SameStores(s, s1) && Keeps(s1, s', ps)
    ensures Keeps(s, s', ps)
  {
  }

  lemma StepKeeps(n: Notation, s: XState, e: Event, tick: nat)
    ensures Keeps(s.stores, Step(n, s, e, tick).state.stores, Step(n, s, e, tick).published)
  {
    hide Generate, Cluster, OnGenerationCompleted, OnBelief, Situation, RequestAll, Seeds, By, Keeps;
    var r := Step(n, s, e, tick);
    if e.body.OfExecutive? && e.body.x.GenerationCompleted? {
      CompletionKeeps(n, s, e.body.x, e.time, tick);
    } else {
      if e.body.OfExecutive? && e.body.x.GenerationStarted? { PassKeeps(n, s.clusters, e.body.x, Cluster(s.clusters, e.body.x.signature), tick); }
      if e.body.OfKernel? { RequestsKeep(n, s, ByWorth(Seeds(), PriorityOf)); }
      if e.body.OfWorldModel? { SignalsKeep(s.clusters, e.body.w, e.correlation, tick); }
      NothingKept(s.stores, r.state.stores, r.published);
    }
  }

  lemma SignalsKeep(c: Clusters, w: WorldModelEvent, correlation: Correlation, tick: nat)
    ensures AnnouncesNothing(OnBelief(c, w, correlation, tick).published)
  {
    hide ClaimKey, Leave, By;
  }

  lemma KeptOn(s: Stores, t: Stores, u: Stores, a: seq<Payload>, b: seq<Payload>)
    requires Keeps(s, t, a) && Keeps(t, u, b)
    ensures Keeps(s, u, a + b)
  {
    hide Project;
    ProjectConcat(a, b, PlanIn);
    ProjectConcat(a, b, PlanIdIn);
    ProjectConcat(a, b, ScoreIn);
    ProjectConcat(a, b, MakingIn);
  }

  /**
   Over any events: the opportunities and plans kept are those announced, in order and as they were announced, and every plan
   proposed waits to be deliberated on, in that order.
   */
  lemma {:induction false} PortfolioIsAnnounced(n: Notation, s: XState, events: seq<Event>, tick: nat)
    ensures Keeps(s.stores, S.Advanced(n, s, events, tick).stores, Announced(n, s, events, tick))
  {
    hide Step, Keeps;
    if events == [] {
      NothingKept(s.stores, s.stores, []);
    } else {
      var k := |events| - 1;
      var before := S.Advanced(n, s, events[..k], tick);
      PortfolioIsAnnounced(n, s, events[..k], tick);
      StepKeeps(n, before, events[k], tick + k);
      KeptOn(s.stores, before.stores, S.Advanced(n, s, events, tick).stores, Announced(n, s, events[..k], tick), Step(n, before, events[k], tick + k).published);
    }
  }

  /** An accepted pass leaves its group, and the three decisions it takes, on record. */
  lemma PursuitIsRecorded(n: Notation, s: XState, e: Event, tick: nat)
    requires e.body.OfExecutive? && e.body.x.GenerationCompleted? && e.body.x.accepted && e.body.x.groupId.Some? && e.body.x.opportunity.Some?
    requires FirstGeneration(s.stores.generations, e.body.x.generationId).Some?
    ensures var r := Step(n, s, e, tick);
            && |Project(r.published, PlanIdIn)| == 1 && Recorded(s, r.state, e.body.x, Project(r.published, PlanIdIn)[0])
            && r.state.research.novel == s.research.novel + 1
  {
    hide Pursue, FirstGeneration, ExecutiveModel.Recorded, By, Project, Recorded, Keeps;
    var x, first := e.body.x, FirstGeneration(s.stores.generations, e.body.x.generationId).value;
    var s1 := s.(stores := s.stores.(generations := s.stores.generations + [ExecutiveModel.Recorded(x, first.started, e.time)]));
    var s2 := s1.(research := s1.research.(novel := s1.research.novel + 1));
    PursuitKeeps(n, s2, x, tick);
    PursuitLeavesResearch(n, s2, x, tick);
    RecordedApart(s, s2, Pursue(n, s2, x, tick).state, x, Project(Pursue(n, s2, x, tick).published, PlanIdIn)[0]);
  }

  lemma RecordedApart(s: XState, s2: XState, s': XState, x: ExecutiveEvent, plan: Id)
    requires x.GenerationCompleted? && x.groupId.Some? && x.opportunity.Some?
    requires Recorded(s2, s', x, plan) && s2.stores.groups == s.stores.groups && s2.decisions == s.decisions
    ensures Recorded(s, s', x, plan)
  {
  }

  lemma PursuitLeavesResearch(n: Notation, s: XState, x: ExecutiveEvent, tick: nat)
    requires x.GenerationCompleted? && x.groupId.Some? && x.opportunity.Some?
    ensures Pursue(n, s, x, tick).state.research == s.research
  {
    hide Valued, PlanFor, By;
  }

  /** A plan selected or abandoned is on record as such, and nothing else changes. */
  lemma ChoiceIsRecorded(n: Notation, s: XState, e: Event, tick: nat)
    requires e.body.OfExecutive? && (e.body.x.PlanSelected? || e.body.x.PlanAbandoned?)
    ensures Step(n, s, e, tick)
         == Reaction(s.(decisions := s.decisions + [if e.body.x.PlanSelected? then SelectedPlan(e.body.x.planId) else Decision.AbandonedPlan(e.body.x.planId)]), [])
  {
    hide OnKernelStarted, OnWorldModel, OnGenerationStarted, OnGenerationCompleted, OnGovernor, OnOutcomeRecorded, By;
  }
}
