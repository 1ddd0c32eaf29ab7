/** The Executive's handlers as functions: passes, plans, searches. */
module ExecutiveModel {
  import opened Prelude
  import opened Ordering
  import opened Ranking
  import opened Rounding
  import opened Events
  import opened Rules

  const EXPECTED_VALUE_PER_CONFIDENCE := 100.0
  const ATTENTION_COST_BASELINE := 1.0
  const CAPITAL_COST_FRACTION := 0.1
  const SOFT_STOP_WINDOW_SEARCHES := 5
  const SOFT_STOP_MIN_NOVEL_RATE := 0.2
  const COLD_START_DELIBERATION_ID := "cold-start"
  const COLD_START_ESTIMATED_COST_PER_QUERY := 5.0
  const COLD_START_SEARCH_DEPTH := 1

  datatype Opportunity = Opportunity(id: Id, beliefIds: seq<string>, value: real, confidence: real)

  datatype Plan = Plan(id: Id, opportunityId: Id, actions: seq<string>, value: real, attention: real, capital: real)

  /** A decision record, without its surrogate id and its rationale. */
  datatype Decision =
    | IdentifiedOpportunity(opportunityId: Id) | ScoredOpportunity(opportunityId: Id)
    | ProposedPlan(planId: Id) | SelectedPlan(planId: Id) | AbandonedPlan(planId: Id)
    | SoftStopped(deliberationId: string) | EmittedIntent(requestId: string) | DeniedIntent(requestId: string)
    | SeededColdStart

  datatype Group = Group(id: Id, signature: Signature, beliefIds: seq<string>, confidence: real)

  datatype Generation = Generation(
    id: Id, completed: bool, signature: Signature, beliefIds: seq<string>, started: real, completedAt: Option<real>,
    accepted: Option<bool>, reason: Option<string>, groupId: Option<Id>, opportunityId: Option<Id>
  )

  datatype Intent = Intent(requestId: string, query: string, cost: real, depth: int, priority: int,
      deliberationId: string)

  /** The Executive's read model of belief signals, and what it has generated from them. */
  datatype Clusters = Clusters(
    confidence: map<string, real>, claim: map<string, string>, signatureOf: map<string, Signature>,
    members: map<Signature, set<string>>, groupOf: map<Signature, Id>, generated: map<Signature, seq<string>>,
    ofOpportunity: map<Id, Signature>, resolved: set<Signature>
  )

  /** Research requests in flight, and the diminishing-returns window. */
  datatype Research = Research(pending: map<string, Intent>, issued: nat, novel: nat, lastRate: Option<real>)

  datatype Stores = Stores(
    opportunities: seq<Opportunity>, plans: seq<Plan>, groups: seq<Group>, generations: seq<Generation>,
    resolvedSituations: seq<Signature>, pendingPlans: seq<Id>
  )

  datatype XState = XState(clusters: Clusters, stores: Stores, decisions: seq<Decision>, research: Research)

  function Initial(): XState {
    XState(Clusters(map[], map[], map[], map[], map[], map[], map[], {}), Stores([], [], [], [], [], []), [],
           Research(map[], 0, 0, None))
  }

  // ---------------------------------------------------------------- belief signals

  function ClaimKey(c: Clusters, beliefId: string): string {
    Lookup(c.claim, beliefId).GetOr(beliefId)
  }

  function Members(c: Clusters, signature: Signature): set<string> {
    Lookup(c.members, signature).GetOr({})
  }

  /** The belief leaves the cluster it was in, if that is another one. */
  function Leave(c: Clusters, beliefId: string, signature: Signature): map<Signature, set<string>> {
    match Lookup(c.signatureOf, beliefId)
    case None => c.members
    case Some(previous) =>
      if previous != signature && previous in c.members then c.members[previous := c.members[previous] - {beliefId}]
      else c.members
  }

  function RegisterBeliefSignal(c: Clusters, beliefId: string, confidence: real, correlation: Correlation,
        tick: nat): (r: Reaction<Clusters>)
    ensures By(Executive, r.published, 12)
  {
    var signature := Signature(correlation, ClaimKey(c, beliefId));
    var left := Leave(c, beliefId, signature);
    Reaction(c.(confidence := c.confidence[beliefId := confidence],
                signatureOf := c.signatureOf[beliefId := signature],
                members := left[signature := Lookup(left, signature).GetOr({}) + {beliefId}]),
             [OfExecutive(GenerationStarted(Minted(tick, Executive, [0]), signature, beliefId))])
  }

  function OnBelief(c: Clusters, w: WorldModelEvent, correlation: Correlation, tick: nat): (r: Reaction<Clusters>)
    ensures By(Executive, r.published, 12)
  {
    RegisterBeliefSignal(if w.BeliefCreated? then c.(claim := c.claim[w.beliefId := w.claim]) else c,
                         w.beliefId, w.confidence, correlation, tick)
  }

  // ---------------------------------------------------------------- generation passes

  function Itself(x: real): real { x }

  /** `OpportunityGenerator.aggregate_confidence` */
  function AggregateConfidence(confidences: seq<real>): real
    requires confidences != []
  {
    Round6(Sum(confidences, Itself) / |confidences| as real)
  }

  /** `OpportunityGenerator.decide` */
  function Decide(beliefIds: seq<string>, generated: Option<seq<string>>, resolved: bool): (bool, Phrase) {
    if generated == Some(beliefIds) then (false, Duplicate)
    else if resolved then (false, NotNovel)
    else (true, Novel)
  }

  function Confidences(c: Clusters, beliefIds: seq<string>): seq<real> {
    Project(beliefIds, beliefId => Lookup(c.confidence, beliefId))
  }

  /** The cluster as it stands when the pass is reached, in belief-id order. */
  ghost function Cluster(c: Clusters, signature: Signature): seq<string> {
    SortedSet(Members(c, signature), StringLe)
  }

  function Started(x: ExecutiveEvent, beliefIds: seq<string>, time: real): Generation
    requires x.GenerationStarted?
  {
    Generation(x.generationId, false, x.signature, beliefIds, time, None, None, None, None, None)
  }

  /** A pass over a given cluster: accepted or not, and recorded at once so that a sibling pass sees it. */
  function Generate(n: Notation, c: Clusters, x: ExecutiveEvent, beliefIds: seq<string>,
        tick: nat): (r: Reaction<Clusters>)
    requires x.GenerationStarted?
    ensures By(Executive, r.published, 11)
  {
    var confidences := Confidences(c, beliefIds);
    if beliefIds == [] then
      Reaction(c, [OfExecutive(GenerationCompleted(x.generationId, x.signature, beliefIds, false, 0.0, n.say(Stale), None, None))])
    else if |confidences| < |beliefIds| then Reaction(c, [])  // KeyError
    else
      var confidence := AggregateConfidence(confidences);
      var (accepted, reason) := Decide(beliefIds, Lookup(c.generated, x.signature), x.signature in c.resolved);
      if accepted then
        var groupId := Lookup(c.groupOf, x.signature).GetOr(Minted(tick, Executive, [0]));
        Reaction(c.(groupOf := c.groupOf[x.signature := groupId], generated := c.generated[x.signature := beliefIds]),
                 [OfExecutive(GenerationCompleted(x.generationId, x.signature, beliefIds, true, confidence, n.say(reason),
                                                  Some(groupId), Some(Minted(tick, Executive, [1]))))])
      else
        Reaction(c, [OfExecutive(GenerationCompleted(x.generationId, x.signature, beliefIds, false, confidence, n.say(reason), None, None))])
  }

  ghost function OnGenerationStarted(n: Notation, s: XState, x: ExecutiveEvent, time: real,
        tick: nat): (r: Reaction<XState>)
    requires x.GenerationStarted?
    ensures By(Executive, r.published, 11)
  {
    hide Generate, Cluster;
    var beliefIds := Cluster(s.clusters, x.signature);
    var r := Generate(n, s.clusters, x, beliefIds, tick);
    Reaction(s.(clusters := r.state, stores := s.stores.(generations := s.stores.generations + [Started(x, beliefIds, time)])), r.published)
  }

  function FirstGeneration(records: seq<Generation>, id: Id): Option<Generation> {
    if records == [] then None else if records[0].id == id then Some(records[0]) else FirstGeneration(records[1..], id)
  }

  function Valued(opportunityId: Id, beliefIds: seq<string>, confidence: real): Opportunity {
    Opportunity(opportunityId, beliefIds, Round4(confidence * EXPECTED_VALUE_PER_CONFIDENCE), confidence)
  }

  /** `_propose_plan`'s plan for an opportunity. */
  function PlanFor(n: Notation, o: Opportunity, tick: nat): Plan {
    Plan(Minted(tick, Executive, [2]), o.id, [n.say(Investigate(o.id)), n.say(ActOn(o.id))],
         o.value, ATTENTION_COST_BASELINE, Round4(o.value * CAPITAL_COST_FRACTION))
  }

  function Proposal(p: Plan): Payload {
    OfExecutive(PlanProposed(p.id, p.opportunityId, p.value, p.attention, p.capital, p.actions))
  }

  function Recorded(x: ExecutiveEvent, started: real, time: real): Generation
    requires x.GenerationCompleted?
  {
    Generation(x.generationId, true, x.signature, x.beliefIds, started, Some(time), Some(x.accepted), Some(x.reason), x.groupId, x.opportunity)
  }

  /** An accepted pass becomes a group, an opportunity and a plan. */
  function Pursue(n: Notation, s: XState, x: ExecutiveEvent, tick: nat): (r: Reaction<XState>)
    requires x.GenerationCompleted? && x.groupId.Some? && x.opportunity.Some?
    ensures By(Executive, r.published, 10)
  {
    var o := Valued(x.opportunity.value, x.beliefIds, x.confidence);
    var p := PlanFor(n, o, tick);
    Reaction(XState(s.clusters.(ofOpportunity := s.clusters.ofOpportunity[o.id := x.signature]),
                    s.stores.(groups := s.stores.groups + [Group(x.groupId.value, x.signature, x.beliefIds, x.confidence)],
                              opportunities := s.stores.opportunities + [o], plans := s.stores.plans + [p],
                              pendingPlans := s.stores.pendingPlans + [p.id]),
                    s.decisions + [IdentifiedOpportunity(o.id), ScoredOpportunity(o.id), Decision.ProposedPlan(p.id)],
                    s.research),
             [OfExecutive(OpportunityIdentified(o.id, o.beliefIds, o.confidence)),
              OfExecutive(OpportunityScored(o.id, o.value, o.confidence)),
              Proposal(p)])
  }

  function OnGenerationCompleted(n: Notation, s: XState, x: ExecutiveEvent, time: real,
        tick: nat): (r: Reaction<XState>)
    requires x.GenerationCompleted?
    ensures By(Executive, r.published, 10)
  {
    hide Pursue;
    match FirstGeneration(s.stores.generations, x.generationId)
    case None => Reaction(s, [])  // IndexError
    case Some(first) =>
      var s1 := s.(stores := s.stores.(generations := s.stores.generations + [Recorded(x, first.started, time)]));
      if !x.accepted then Reaction(s1, [])
      else
        var s2 := s1.(research := s1.research.(novel := s1.research.novel + 1));
        if x.groupId.None? || x.opportunity.None? then Reaction(s2, [])  // AssertionError
        else Pursue(n, s2, x, tick)
  }

  // ---------------------------------------------------------------- outcomes and decisions

  function PlanId(p: Plan): Id { p.id }
  function OpportunityId(o: Opportunity): Id { o.id }

  /** The signature a plan's opportunity came from, through the Executive's own records. */
  function Situation(s: XState, planId: Id): Option<Signature> {
    match Lookup(Latest(s.stores.plans, PlanId), planId)
    case None => None
    case Some(p) => Lookup(s.clusters.ofOpportunity, p.opportunityId)
  }

  function OnOutcomeRecorded(s: XState, planId: Id): XState {
    match Situation(s, planId)
    case None => s
    case Some(signature) =>
      if signature in s.clusters.resolved then s
      else s.(clusters := s.clusters.(resolved := s.clusters.resolved + {signature}),
              stores := s.stores.(resolvedSituations := s.stores.resolvedSituations + [signature]))
  }

  // ---------------------------------------------------------------- research

  /** `_should_continue_researching` */
  predicate ShouldContinue(r: Research) {
    r.lastRate.None? || r.lastRate.value >= SOFT_STOP_MIN_NOVEL_RATE
  }

  /** The share of a window's searches that turned up something new. */
  function Rate(novel: nat, issued: nat): real
    requires issued > 0
  {
    Round6(novel as real / issued as real)
  }

  /** `_note_search_issued` */
  function NoteSearch(r: Research): Research {
    var issued := r.issued + 1;
    if issued >= SOFT_STOP_WINDOW_SEARCHES
    then r.(issued := 0, novel := 0, lastRate := Some(Rate(r.novel, issued)))
    else r.(issued := issued)
  }

  datatype Candidate = Candidate(query: string, cost: real, depth: int, priority: int, deliberationId: string)

  function RequestResearch(n: Notation, s: XState, c: Candidate): (r: Reaction<XState>)
    ensures By(Executive, r.published, 17)
  {
    if !ShouldContinue(s.research) then Reaction(s.(decisions := s.decisions + [SoftStopped(c.deliberationId)]), [])
    else
      var id := n.requestId(c.deliberationId, c.query, c.depth);
      var intent := Intent(id, c.query, c.cost, c.depth, c.priority, c.deliberationId);
      Reaction(s.(research := NoteSearch(s.research.(pending := s.research.pending[id := intent]))),
               [OfExecutive(ResearchSpendRequested(id, c.deliberationId, "research", c.cost, c.depth))])
  }

  function RequestAll(n: Notation, s: XState, cs: seq<Candidate>): (r: Reaction<XState>)
    ensures By(Executive, r.published, 17)
    decreases |cs|
  {
    if cs == [] then Reaction(s, [])
    else
      var r := RequestResearch(n, s, cs[0]);
      var rest := RequestAll(n, r.state, cs[1..]);
      Reaction(rest.state, r.published + rest.published)
  }

  /** The request ids handed back, `None` where the soft stop kept a search from being asked for. */
  function AskedIds(n: Notation, s: XState, cs: seq<Candidate>): (r: seq<Option<string>>)
    ensures |r| == |cs|
    decreases |cs|
  {
    if cs == [] then []
    else [if ShouldContinue(s.research) then Some(n.requestId(cs[0].deliberationId, cs[0].query, cs[0].depth)) else None]
         + AskedIds(n, RequestResearch(n, s, cs[0]).state, cs[1..])
  }

  function PriorityOf(c: Candidate): real { c.priority as real }

  /** `request_research_batch`: candidates ask in ranked order. */
  function RequestBatch(n: Notation, s: XState, cs: seq<Candidate>): (r: Reaction<XState>)
    ensures By(Executive, r.published, 17)
  {
    RequestAll(n, s, ByWorth(cs, PriorityOf))
  }

  /** `_on_research_spend_approved` */
  function OnResearchApproved(s: XState, g: GovernorEvent): (r: Reaction<XState>)
    requires g.ResearchSpendApproved?
    ensures By(Executive, r.published, 15)
  {
    match Lookup(s.research.pending, g.requestId)
    case None => Reaction(s, [])
    case Some(intent) =>
      Reaction(s.(research := s.research.(pending := s.research.pending - {g.requestId}), decisions := s.decisions + [EmittedIntent(g.requestId)]),
               [OfExecutive(ResearchIntent(g.requestId, intent.query, g.cost, intent.depth, intent.priority))])
  }

  function OnResearchDenied(s: XState, g: GovernorEvent): XState
    requires g.ResearchSpendDenied?
  {
    if g.requestId !in s.research.pending then s
    else s.(research := s.research.(pending := s.research.pending - {g.requestId}), decisions := s.decisions + [DeniedIntent(g.requestId)])
  }

  function Seeds(): seq<Candidate> {
    [Seed("emerging profitable online business models 2026", 3),
     Seed("underserved niche markets with low startup cost", 2),
     Seed("recurring-revenue business models a solo operator can run", 1)]
  }

  function Seed(query: string, priority: int): Candidate {
    Candidate(query, COLD_START_ESTIMATED_COST_PER_QUERY, COLD_START_SEARCH_DEPTH, priority, COLD_START_DELIBERATION_ID)
  }

  /** Cold start: once in the organism's life, and only before it holds any belief. */
  function OnKernelStarted(n: Notation, s: XState): (r: Reaction<XState>)
    ensures By(Executive, r.published, 17)
  {
    hide RequestBatch, Seeds;
    if SeededColdStart in s.decisions || s.clusters.confidence != map[] then Reaction(s, [])
    else
      var r := RequestBatch(n, s, Seeds());
      Reaction(r.state.(decisions := r.state.decisions + [SeededColdStart]), r.published)
  }

  // ---------------------------------------------------------------- the subscriptions

  ghost function OnOwn(n: Notation, s: XState, x: ExecutiveEvent, time: real, tick: nat): Reaction<XState> {
    if x.GenerationStarted? then OnGenerationStarted(n, s, x, time, tick)
    else if x.GenerationCompleted? then OnGenerationCompleted(n, s, x, time, tick)
    else if x.PlanSelected? then Reaction(s.(decisions := s.decisions + [SelectedPlan(x.planId)]), [])
    else if x.PlanAbandoned? then Reaction(s.(decisions := s.decisions + [Decision.AbandonedPlan(x.planId)]), [])
    else Reaction(s, [])
  }

  function OnGovernor(s: XState, g: GovernorEvent): Reaction<XState> {
    if g.ResearchSpendApproved? then OnResearchApproved(s, g)
    else if g.ResearchSpendDenied? then Reaction(OnResearchDenied(s, g), [])
    else Reaction(s, [])
  }

  function OnWorldModel(s: XState, w: WorldModelEvent, correlation: Correlation, tick: nat): Reaction<XState> {
    var r := OnBelief(s.clusters, w, correlation, tick);
    Reaction(s.(clusters := r.state), r.published)
  }

  ghost function Step(n: Notation, s: XState, e: Event, tick: nat): Reaction<XState> {
    match e.body
    case OfKernel(k) => if k.Started? then OnKernelStarted(n, s) else Reaction(s, [])
    case OfWorldModel(w) => OnWorldModel(s, w, e.correlation, tick)
    case OfExecutive(x) => OnOwn(n, s, x, e.time, tick)
    case OfGovernor(g) => OnGovernor(s, g)
    case OfMemory(m) => Reaction(if m.OutcomeRecorded? then OnOutcomeRecorded(s, m.planId) else s, [])
    case _ => Reaction(s, [])
  }
}
