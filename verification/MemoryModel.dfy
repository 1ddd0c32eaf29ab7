/** Memory & Ledger's handlers as functions: outcomes and learning. */
module MemoryModel {
  import opened Prelude
  import opened Events
  import opened Rules

  const ATTENTION_COST_PER_ACTION := 1.0
  const CAPITAL_COST_PER_ACTION := 1.0
  const CONSOLIDATION_INTERVAL := 3
  const DEFAULT_RELIABILITY := 1.0

  datatype Outcome = Outcome(id: Id, actionId: Id, planId: Id, success: bool, text: string)

  datatype EpisodicEntry = EpisodicEntry(id: Id, outcomeId: Id, summary: string)

  datatype LedgerEntry = LedgerEntry(id: Id, actionId: Id, deltaAttention: real, deltaCapital: real)

  datatype RecordedSpend = RecordedSpend(requestId: string, correlation: Correlation, category: string, cost: real)

  datatype Prediction = Prediction(
    id: Id, planId: Id, predicted: real, resolved: bool, created: real,
    outcomeId: Option<Id>, actual: Option<real>, miss: Option<real>, resolvedAt: Option<real>
  )

  datatype Iteration = Iteration(id: Id, completed: bool, considered: nat, started: real,
                                 completedAt: Option<real>, meanError: Option<real>, heuristicId: Option<Id>)

  datatype Heuristic = Heuristic(id: Id, description: string, confidence: real, created: real)

  datatype Revision = Revision(id: Id, completed: bool, considered: nat, started: real,
                               completedAt: Option<real>, consensus: Option<real>, knowledgeId: Option<Id>)

  datatype LongTerm = LongTerm(id: Id, summary: string, kind: string, consensus: real, considered: nat, created: real)

  datatype Reliability = Reliability(sensorId: string, reliability: real, considered: nat, updated: real)

  /** The learning loops' ledgers. */
  datatype Learning = Learning(iterations: seq<Iteration>, heuristics: seq<Heuristic>, revisions: seq<Revision>,
      longTerm: seq<LongTerm>)

  /** Which sensors stand behind a belief, an opportunity, a plan. */
  datatype Attribution = Attribution(ofBelief: map<string, string>, ofOpportunity: map<Id, seq<string>>,
      ofPlan: map<Id, seq<string>>)

  datatype MState = MState(
    outcomes: seq<Outcome>, episodes: seq<EpisodicEntry>, entries: seq<LedgerEntry>, spending: seq<RecordedSpend>,
    predictions: seq<Prediction>, pending: map<Id, Prediction>,
    learning: Learning, reliabilities: seq<Reliability>, sensors: Attribution
  )

  function Initial(): MState {
    MState([], [], [], [], [], map[], Learning([], [], [], []), [], Attribution(map[], map[], map[]))
  }

  // ---------------------------------------------------------------- the learners

  function MissOf(p: Prediction): Option<real> { p.miss }
  function Itself(x: real): real { x }
  function ConfidenceOf(h: Heuristic): real { h.confidence }

  predicate IsResolved(p: Prediction) { p.resolved }
  predicate IsAccurate(p: Prediction) { p.miss == Some(0.0) }

  /** Every resolution on the ledger, in order. */
  function Resolved(predictions: seq<Prediction>): seq<Prediction> {
    Filter(predictions, IsResolved)
  }

  /** `MediumLearner.compute_mean_error` */
  function MeanError(resolved: seq<Prediction>): real {
    var errors := Project(resolved, MissOf);
    if errors == [] then 0.0 else Sum(errors, Itself) / |errors| as real
  }

  /** `MediumLearner.compute_confidence` */
  function Confidence(considered: nat): real {
    var ratio := considered as real / (considered + 5) as real;
    if ratio < 0.99 then ratio else 0.99
  }

  /** `SlowLearner.should_consolidate` */
  predicate ShouldConsolidate(heuristics: nat) {
    heuristics > 0 && heuristics % CONSOLIDATION_INTERVAL == 0
  }

  /** `SlowLearner.compute_consensus_confidence` */
  function Consensus(heuristics: seq<Heuristic>): real {
    if heuristics == [] then 0.0 else Sum(heuristics, ConfidenceOf) / |heuristics| as real
  }

  /** `SlowLearner.classify` */
  function Classify(meanError: real): string {
    if meanError < 0.0 then "anti_pattern" else "playbook"
  }

  /** `FastLearner.compute_reliability` */
  function ComputeReliability(resolved: seq<Prediction>): real {
    if resolved == [] then DEFAULT_RELIABILITY
    else |Filter(resolved, IsAccurate)| as real / |resolved| as real
  }

  // ---------------------------------------------------------------- outcomes

  function Record(n: Notation, s: MState, actionId: Id, planId: Id, success: bool, text: string,
        tick: nat): (r: Reaction<MState>)
    ensures r.state == s.(outcomes := r.state.outcomes, episodes := r.state.episodes, entries := r.state.entries)
    ensures By(Memory, r.published, 7)
  {
    var id, entryId := Minted(tick, Memory, [0]), Minted(tick, Memory, [2]);
    var attention := if success then -ATTENTION_COST_PER_ACTION else 0.0;
    var capital := if success then -CAPITAL_COST_PER_ACTION else 0.0;
    Reaction(s.(outcomes := s.outcomes + [Outcome(id, actionId, planId, success, text)],
                episodes := s.episodes + [EpisodicEntry(Minted(tick, Memory, [1]), id, n.say(Episode(actionId, success, text)))],
                entries := s.entries + [LedgerEntry(entryId, actionId, attention, capital)]),
             [OfMemory(OutcomeRecorded(id, actionId, planId, success, text)),
              OfMemory(LedgerEntryPosted(entryId, actionId, attention, capital))])
  }

  // ---------------------------------------------------------------- predictions

  function FirstPrediction(records: seq<Prediction>, id: Id): Option<Prediction> {
    if records == [] then None else if records[0].id == id then Some(records[0]) else FirstPrediction(records[1..], id)
  }

  function SensorsOf(s: MState, planId: Id): seq<string> {
    Lookup(s.sensors.ofPlan, planId).GetOr([])
  }

  function OnPlanProposed(s: MState, x: ExecutiveEvent, tick: nat): (r: Reaction<MState>)
    requires x.PlanProposed?
    ensures By(Memory, r.published, 9)
  {
    var behind := Lookup(s.sensors.ofOpportunity, x.opportunityId).GetOr([]);
    Reaction(s.(sensors := s.sensors.(ofPlan := s.sensors.ofPlan[x.planId := behind])),
             [OfMemory(PredictionRecorded(Minted(tick, Memory, [0]), x.planId, x.value))])
  }

  function OnPredictionRecorded(s: MState, m: MemoryEvent, time: real): Reaction<MState>
    requires m.PredictionRecorded?
  {
    var record := Prediction(m.predictionId, m.planId, m.predicted, false, time, None, None, None, None);
    Reaction(s.(predictions := s.predictions + [record], pending := s.pending[m.planId := record]), [])
  }

  /** The first outcome to arrive claims the plan's pending prediction; later ones find nothing. */
  function OnOutcomeRecorded(s: MState, m: MemoryEvent): (r: Reaction<MState>)
    requires m.OutcomeRecorded?
    ensures By(Memory, r.published, 6)
  {
    if m.planId !in s.pending then Reaction(s, [])
    else
      var claimed := s.pending[m.planId];
      var actual := if m.success then claimed.predicted else 0.0;
      Reaction(s.(pending := s.pending - {m.planId}),
               [OfMemory(PredictionResolved(claimed.id, m.planId, m.outcomeId, claimed.predicted, actual, actual - claimed.predicted))])
  }

  /** The resolutions a sensor contributed to. */
  function Attributable(s: MState, resolved: seq<Prediction>, sensor: string): seq<Prediction> {
    Filter(resolved, (p: Prediction) => sensor in SensorsOf(s, p.planId))
  }

  function Rescored(s: MState, resolved: seq<Prediction>, sensor: string): Payload {
    var own := Attributable(s, resolved, sensor);
    OfMemory(SensorReliabilityUpdated(sensor, ComputeReliability(own), |own|))
  }

  function RescoredAll(s: MState, resolved: seq<Prediction>, sensors: seq<string>): (r: seq<Payload>)
    ensures |r| == |sensors|
    ensures By(Memory, r, 5)
  {
    seq(|sensors|, i requires 0 <= i < |sensors| => Rescored(s, resolved, sensors[i]))
  }

  function OnPredictionResolved(s: MState, m: MemoryEvent, time: real, tick: nat): (r: Reaction<MState>)
    requires m.PredictionResolved?
    ensures By(Memory, r.published, 5)
  {
    hide RescoredAll, SensorsOf, Resolved, FirstPrediction;
    match FirstPrediction(s.predictions, m.predictionId)
    case None => Reaction(s, [])  // IndexError
    case Some(proposed) =>
      var record := Prediction(m.predictionId, m.planId, m.predicted, true, proposed.created,
                               Some(m.outcomeId), Some(m.actual), Some(m.miss), Some(time));
      var s' := s.(predictions := s.predictions + [record]);
      var resolved := Resolved(s'.predictions);
      Reaction(s', [OfMemory(LearningStarted(Minted(tick, Memory, [0]), |resolved|))] + RescoredAll(s', resolved, SensorsOf(s', m.planId)))
  }

  function OnReliabilityUpdated(s: MState, m: MemoryEvent, time: real): Reaction<MState>
    requires m.SensorReliabilityUpdated?
  {
    Reaction(s.(reliabilities := s.reliabilities + [Reliability(m.sensorId, m.reliability, m.considered, time)]), [])
  }

  // ---------------------------------------------------------------- the medium and slow loops

  function FirstIteration(records: seq<Iteration>, id: Id): Option<Iteration> {
    if records == [] then None else if records[0].id == id then Some(records[0]) else FirstIteration(records[1..], id)
  }

  function FirstRevision(records: seq<Revision>, id: Id): Option<Revision> {
    if records == [] then None else if records[0].id == id then Some(records[0]) else FirstRevision(records[1..], id)
  }

  function OnLearningStarted(l: Learning, predictions: seq<Prediction>, m: MemoryEvent, time: real,
        tick: nat): (r: Reaction<Learning>)
    requires m.LearningStarted?
    ensures By(Memory, r.published, 4)
  {
    Reaction(l.(iterations := l.iterations + [Iteration(m.iterationId, false, m.considered, time, None, None, None)]),
             [OfMemory(LearningCompleted(m.iterationId, m.considered, MeanError(Resolved(predictions)), Minted(tick, Memory, [0])))])
  }

  function OnLearningCompleted(n: Notation, l: Learning, m: MemoryEvent, time: real, tick: nat): (r: Reaction<Learning>)
    requires m.LearningCompleted?
    ensures By(Memory, r.published, 3)
  {
    match FirstIteration(l.iterations, m.iterationId)
    case None => Reaction(l, [])  // IndexError
    case Some(first) =>
      var l' := l.(iterations := l.iterations + [Iteration(m.iterationId, true, m.considered, first.started,
                                                           Some(time), Some(m.meanError), Some(m.heuristicId))],
                   heuristics := l.heuristics + [Heuristic(m.heuristicId, n.say(Calibration(m.meanError, m.considered)),
                                                           Confidence(m.considered), time)]);
      Reaction(l', if ShouldConsolidate(|l'.heuristics|)
                   then [OfMemory(RevisionStarted(Minted(tick, Memory, [0]), |l'.heuristics|, m.meanError))] else [])
  }

  function OnRevisionStarted(n: Notation, l: Learning, m: MemoryEvent, time: real, tick: nat): (r: Reaction<Learning>)
    requires m.RevisionStarted?
    ensures By(Memory, r.published, 2)
  {
    var consensus := Consensus(l.heuristics);
    Reaction(l.(revisions := l.revisions + [Revision(m.revisionId, false, m.considered, time, None, None, None)]),
             [OfMemory(RevisionCompleted(m.revisionId, m.considered, consensus, Minted(tick, Memory, [0]),
                                         Classify(m.meanError), n.say(Consolidation(consensus, m.considered))))])
  }

  function OnRevisionCompleted(l: Learning, m: MemoryEvent, time: real): (r: Reaction<Learning>)
    requires m.RevisionCompleted?
    ensures r.published == []
  {
    match FirstRevision(l.revisions, m.revisionId)
    case None => Reaction(l, [])  // IndexError
    case Some(first) =>
      Reaction(l.(revisions := l.revisions + [Revision(m.revisionId, true, m.considered, first.started,
                                                       Some(time), Some(m.consensus), Some(m.knowledgeId))],
                  longTerm := l.longTerm + [LongTerm(m.knowledgeId, m.summary, m.knowledgeType, m.consensus, m.considered, time)]), [])
  }

  /** The four events of the medium and slow loops. */
  function Learn(n: Notation, l: Learning, predictions: seq<Prediction>, m: MemoryEvent, time: real,
        tick: nat): (r: Reaction<Learning>)
    ensures By(Memory, r.published, Rank(OfMemory(m)))
  {
    hide OnLearningStarted, OnLearningCompleted, OnRevisionStarted, OnRevisionCompleted;
    if m.LearningStarted? then OnLearningStarted(l, predictions, m, time, tick)
    else if m.LearningCompleted? then OnLearningCompleted(n, l, m, time, tick)
    else if m.RevisionStarted? then OnRevisionStarted(n, l, m, time, tick)
    else if m.RevisionCompleted? then OnRevisionCompleted(l, m, time)
    else Reaction(l, [])
  }

  // ---------------------------------------------------------------- attribution and spending

  function OnBelief(s: MState, beliefId: string, provenance: string): MState {
    s.(sensors := s.sensors.(ofBelief := s.sensors.ofBelief[beliefId := provenance]))
  }

  function SensorBehind(held: map<string, string>): string -> Option<string> {
    beliefId => Lookup(held, beliefId)
  }

  function OnOpportunityIdentified(s: MState, x: ExecutiveEvent): MState
    requires x.OpportunityIdentified?
  {
    var behind := Project(x.beliefIds, SensorBehind(s.sensors.ofBelief));
    s.(sensors := s.sensors.(ofOpportunity := s.sensors.ofOpportunity[x.opportunityId := behind]))
  }

  function OnResearchSpendApproved(s: MState, g: GovernorEvent, correlation: Correlation): MState
    requires g.ResearchSpendApproved?
  {
    s.(spending := s.spending + [RecordedSpend(g.requestId, correlation, g.category, g.cost)])
  }

  // ---------------------------------------------------------------- the subscriptions

  function OnPrediction(s: MState, m: MemoryEvent, time: real, tick: nat): (r: Reaction<MState>)
    ensures By(Memory, r.published, Rank(OfMemory(m)))
  {
    hide OnOutcomeRecorded, OnPredictionResolved;
    if m.PredictionRecorded? then OnPredictionRecorded(s, m, time)
    else if m.OutcomeRecorded? then OnOutcomeRecorded(s, m)
    else if m.PredictionResolved? then OnPredictionResolved(s, m, time, tick)
    else if m.SensorReliabilityUpdated? then OnReliabilityUpdated(s, m, time)
    else Reaction(s, [])
  }

  predicate OfLoops(m: MemoryEvent) {
    m.LearningStarted? || m.LearningCompleted? || m.RevisionStarted? || m.RevisionCompleted?
  }

  function OnOwn(n: Notation, s: MState, m: MemoryEvent, time: real, tick: nat): (r: Reaction<MState>)
    ensures By(Memory, r.published, Rank(OfMemory(m)))
  {
    hide Learn, OnPrediction;
    if OfLoops(m) then
      var r := Learn(n, s.learning, s.predictions, m, time, tick);
      Reaction(s.(learning := r.state), r.published)
    else OnPrediction(s, m, time, tick)
  }

  function OnAction(n: Notation, s: MState, t: ExecutorEvent, tick: nat): Reaction<MState> {
    if t.ActionSucceeded? then Record(n, s, t.actionId, t.planId, true, t.text, tick)
    else if t.ActionFailed? then Record(n, s, t.actionId, t.planId, false, t.text, tick)
    else Reaction(s, [])
  }

  function OnExecutive(s: MState, x: ExecutiveEvent, tick: nat): Reaction<MState> {
    if x.PlanProposed? then OnPlanProposed(s, x, tick)
    else if x.OpportunityIdentified? then Reaction(OnOpportunityIdentified(s, x), [])
    else Reaction(s, [])
  }

  function Step(n: Notation, s: MState, e: Event, tick: nat): Reaction<MState> {
    match e.body
    case OfWorldModel(w) => Reaction(OnBelief(s, w.beliefId, w.provenance), [])
    case OfExecutive(x) => OnExecutive(s, x, tick)
    case OfGovernor(g) => Reaction(if g.ResearchSpendApproved? then OnResearchSpendApproved(s, g, e.correlation) else s, [])
    case OfExecutor(t) => OnAction(n, s, t, tick)
    case OfMemory(m) => OnOwn(n, s, m, e.time, tick)
    case _ => Reaction(s, [])
  }

  // ---------------------------------------------------------------- what snapshots rebuild

  function PlanOf(p: Prediction): Id { p.planId }

  /** `_restore_predictions`: the plans whose latest prediction transition is pending. */
  function RebuiltPending(records: seq<Prediction>): map<Id, Prediction> {
    var latest := Latest(records, PlanOf);
    map id | id in latest && !latest[id].resolved :: latest[id]
  }
}
