/** Numbers stay in range along the whole pipeline, so the cost rule never rejects a plan. */
module Ranges {
  import opened Prelude
  import opened Ordering
  import opened Rounding
  import opened Ranking
  import opened Events
  import opened Rules
  import opened KernelModel
  import opened Organism
  import opened Runs
  import P = PerceptionModel
  import W = WorldModelModel
  import X = ExecutiveModel
  import G = GovernorModel
  import T = ExecutorModel
  import M = MemoryModel

  predicate Unit(x: real) { 0.0 <= x <= 1.0 }

  /** Short of certainty. */
  predicate Modest(x: real) { 0.0 <= x <= 0.99 }

  /** The range each announced number must lie in. */
  predicate InRange(p: Payload) {
    match p
    case OfPerception(x) => Unit(x.confidence)
    case OfWorldModel(w) => Unit(w.confidence)
    case OfExecutive(x) =>
      if x.GenerationCompleted? || x.OpportunityIdentified? then Unit(x.confidence)
      else if x.OpportunityScored? then 0.0 <= x.value <= 100.0
      else if x.PlanProposed? then 0.0 <= x.value <= 100.0 && x.attention == X.ATTENTION_COST_BASELINE && 0.0 <= x.capital <= 10.0
      else true
    case OfMemory(m) =>
      if m.SensorReliabilityUpdated? then Unit(m.reliability)
      else if m.RevisionCompleted? then Modest(m.consensus)
      else true
    case _ => true
  }

  ghost predicate AllInRange(ps: seq<Payload>) {
    forall p <- ps :: InRange(p)
  }

  ghost predicate Sensing(w: W.WState) {
    BeliefsInRange(w.beliefs) && (forall s :: s in w.reliabilities ==> Unit(w.reliabilities[s]))
  }

  /** Every belief signal held, and every opportunity and plan, is in range. */
  ghost predicate Valuing(x: X.XState) {
    && (forall b :: b in x.clusters.confidence ==> Unit(x.clusters.confidence[b]))
    && (forall o <- x.stores.opportunities :: Unit(o.confidence) && 0.0 <= o.value <= 100.0)
    && (forall p <- x.stores.plans :: 0.0 <= p.value <= 100.0 && p.attention == X.ATTENTION_COST_BASELINE && 0.0 <= p.capital <= 10.0)
  }

  ghost predicate Scoring(m: M.MState) {
    && (forall r <- m.reliabilities :: Unit(r.reliability))
    && (forall h <- m.learning.heuristics :: Modest(h.confidence))
    && (forall k <- m.learning.longTerm :: Modest(k.consensus))
  }

  ghost predicate Ranging(p: Point) {
    Sensing(p.o.worldModel) && Valuing(p.o.executive) && Scoring(p.o.memory) && AllInRange(Log(p))
  }

  // ---------------------------------------------------------------- the arithmetic

  lemma Product(a: real, b: real)
    requires a >= 0.0 && b >= 0.0
    ensures a * b >= 0.0
  {
  }

  lemma UnitProduct(a: real, b: real)
    requires Unit(a) && Unit(b)
    ensures Unit(a * b)
  {
    Product(a, b);
    Product(a, 1.0 - b);
    assert a * (1.0 - b) == a - a * b;
  }

  lemma AggregateInRange(confidences: seq<real>)
    requires confidences != [] && forall c <- confidences :: Unit(c)
    ensures Unit(X.AggregateConfidence(confidences))
  {
    SumBounds(confidences, X.Itself, 0.0, 1.0);
    MeanBounds(Sum(confidences, X.Itself), |confidences| as real, 1.0);
    Round6Within(Sum(confidences, X.Itself) / |confidences| as real, 0, 1);
  }

  /** A confidence in [0, 1] makes a value in [0, 100] and a capital cost in [0, 10]. */
  lemma ValueInRange(n: Notation, id: Id, beliefIds: seq<string>, confidence: real, tick: nat)
    requires Unit(confidence)
    ensures var o := X.Valued(id, beliefIds, confidence);
            0.0 <= o.value <= 100.0 && 0.0 <= X.PlanFor(n, o, tick).capital <= 10.0
  {
    hide Round4;
    Round4Within(confidence * X.EXPECTED_VALUE_PER_CONFIDENCE, 0, 100);
    Round4Within(X.Valued(id, beliefIds, confidence).value * X.CAPITAL_COST_FRACTION, 0, 10);
  }

  lemma ReliabilityInRange(resolved: seq<M.Prediction>)
    ensures Unit(M.ComputeReliability(resolved))
  {
    FilterMembers(resolved, M.IsAccurate);
    if resolved != [] {
      MeanBounds(|Filter(resolved, M.IsAccurate)| as real, |resolved| as real, 1.0);
    }
  }

  lemma ModestMean(heuristics: seq<M.Heuristic>)
    requires forall h <- heuristics :: Modest(h.confidence)
    ensures Modest(M.Consensus(heuristics))
  {
    SumBounds(heuristics, M.ConfidenceOf, 0.0, 0.99);
    if heuristics != [] {
      var n, total := |heuristics| as real, Sum(heuristics, M.ConfidenceOf);
      assert 0.0 <= total <= 0.99 * n;
      MeanBounds(total, n, 0.99);
    }
  }

  /** Confidence grows with history and stays short of certainty. */
  lemma ConfidenceIsModest(considered: nat)
    ensures Modest(M.Confidence(considered))
  {
  }

  // ---------------------------------------------------------------- component by component

  lemma PerceptionInRange(s: P.PState, e: Event)
    ensures AllInRange(P.Step(s, e).published)
  {
    hide P.ResearchSensor;
  }

  lemma WorldModelInRange(s: W.WState, e: Event)
    requires Sensing(s) && InRange(e.body)
    ensures var r := W.Step(s, e); Sensing(r.state) && AllInRange(r.published)
  {
    hide W.BeliefId;
    if e.body.OfPerception? {
      UnitProduct(e.body.p.confidence, W.ReliabilityOf(s, e.body.p.sensorId));
    }
  }

  lemma ConfidencesInRange(c: X.Clusters, beliefIds: seq<string>)
    requires forall b :: b in c.confidence ==> Unit(c.confidence[b])
    ensures forall x <- X.Confidences(c, beliefIds) :: Unit(x)
  {
    forall x | x in X.Confidences(c, beliefIds) ensures Unit(x) {
      var i := ProjectOrigin(beliefIds, beliefId => Lookup(c.confidence, beliefId), x);
    }
  }

  lemma GenerationInRange(n: Notation, c: X.Clusters, x: ExecutiveEvent, beliefIds: seq<string>, tick: nat)
    requires x.GenerationStarted? && forall b :: b in c.confidence ==> Unit(c.confidence[b])
    ensures var r := X.Generate(n, c, x, beliefIds, tick); AllInRange(r.published) && r.state.confidence == c.confidence
  {
    hide X.Confidences, X.AggregateConfidence, By;
    ConfidencesInRange(c, beliefIds);
    if X.Confidences(c, beliefIds) != [] { AggregateInRange(X.Confidences(c, beliefIds)); }
  }

  lemma PursuitInRange(n: Notation, s: X.XState, x: ExecutiveEvent, tick: nat)
    requires x.GenerationCompleted? && x.groupId.Some? && x.opportunity.Some? && Unit(x.confidence) && Valuing(s)
    ensures var r := X.Pursue(n, s, x, tick); Valuing(r.state) && AllInRange(r.published)
  {
    hide X.Valued, By, Round4;
    ValueInRange(n, x.opportunity.value, x.beliefIds, x.confidence, tick);
    ValuedKeeps(x.opportunity.value, x.beliefIds, x.confidence);
  }

  lemma ValuedKeeps(id: Id, beliefIds: seq<string>, confidence: real)
    ensures var o := X.Valued(id, beliefIds, confidence); o.confidence == confidence && o.id == id && o.beliefIds == beliefIds
  {
  }

  lemma CompletionInRange(n: Notation, s: X.XState, x: ExecutiveEvent, time: real, tick: nat)
    requires x.GenerationCompleted? && Unit(x.confidence) && Valuing(s)
    ensures var r := X.OnGenerationCompleted(n, s, x, time, tick); Valuing(r.state) && AllInRange(r.published)
  {
    hide X.Pursue, By, X.Recorded;
    var first := X.FirstGeneration(s.stores.generations, x.generationId);
    if first.Some? && x.accepted && x.groupId.Some? && x.opportunity.Some? {
      var s1 := s.(stores := s.stores.(generations := s.stores.generations + [X.Recorded(x, first.value.started, time)]));
      PursuitInRange(n, s1.(research := s1.research.(novel := s1.research.novel + 1)), x, tick);
    }
  }

  lemma StartInRange(n: Notation, s: X.XState, x: ExecutiveEvent, time: real, tick: nat)
    requires x.GenerationStarted? && Valuing(s)
    ensures var r := X.OnGenerationStarted(n, s, x, time, tick); Valuing(r.state) && AllInRange(r.published)
  {
    hide X.Generate, By, X.Started, X.Cluster;
    GenerationInRange(n, s.clusters, x, X.Cluster(s.clusters, x.signature), tick);
  }

  lemma {:induction false} RequestsInRange(n: Notation, s: X.XState, cs: seq<X.Candidate>)
    ensures var r := X.RequestAll(n, s, cs); AllInRange(r.published) && r.state.clusters == s.clusters && r.state.stores == s.stores
    decreases |cs|
  {
    hide By;
    if cs != [] { RequestsInRange(n, X.RequestResearch(n, s, cs[0]).state, cs[1..]); }
  }

  lemma ExecutiveInRange(n: Notation, s: X.XState, e: Event, tick: nat)
    requires Valuing(s) && InRange(e.body)
    ensures var r := X.Step(n, s, e, tick); Valuing(r.state) && AllInRange(r.published)
  {
    hide X.OnGenerationStarted, X.OnGenerationCompleted, X.RequestAll, X.Seeds, X.Leave, X.ClaimKey, X.Situation, By;
    match e.body
    case OfKernel(k) => RequestsInRange(n, s, ByWorth(X.Seeds(), X.PriorityOf));
    case OfExecutive(x) =>
      if x.GenerationStarted? { StartInRange(n, s, x, e.time, tick); }
      else if x.GenerationCompleted? { CompletionInRange(n, s, x, e.time, tick); }
    case _ =>
  }

  lemma GovernorInRange(v: G.Env, s: G.GState, e: Event, tick: nat)
    ensures AllInRange(G.Step(v, s, e, tick).published)
  {
    hide G.Step;
    GovernorPublishes(v, s, e, tick);
  }

  lemma ExecutorInRange(n: Notation, b: T.Behaviour, s: T.TState, e: Event, tick: nat)
    ensures AllInRange(T.Step(n, b, s, e, tick).published)
  {
    hide T.Step;
    ExecutorPublishes(n, b, s, e, tick);
  }

  lemma RescoringInRange(s: M.MState, resolved: seq<M.Prediction>, sensors: seq<string>)
    ensures AllInRange(M.RescoredAll(s, resolved, sensors))
  {
    hide M.ComputeReliability, M.Attributable, By;
    var ps := M.RescoredAll(s, resolved, sensors);
    forall p | p in ps ensures InRange(p) {
      var i :| 0 <= i < |ps| && ps[i] == p;
      ReliabilityInRange(M.Attributable(s, resolved, sensors[i]));
    }
  }

  lemma ResolutionInRange(s: M.MState, m: MemoryEvent, time: real, tick: nat)
    requires m.PredictionResolved?
    ensures var r := M.OnPredictionResolved(s, m, time, tick);
            && AllInRange(r.published)
            && r.state.reliabilities == s.reliabilities && r.state.learning == s.learning
  {
    hide M.RescoredAll, M.SensorsOf, M.Resolved, By;
    var r := M.OnPredictionResolved(s, m, time, tick);
    RescoringInRange(r.state, M.Resolved(r.state.predictions), M.SensorsOf(r.state, m.planId));
  }

  lemma LoopsInRange(n: Notation, s: M.MState, m: MemoryEvent, time: real, tick: nat)
    requires Scoring(s) && InRange(OfMemory(m)) && M.OfLoops(m)
    ensures var r := M.Learn(n, s.learning, s.predictions, m, time, tick);
            Scoring(s.(learning := r.state)) && AllInRange(r.published)
  {
    hide M.MeanError, M.Consensus, M.Confidence, M.Resolved, M.Classify, M.FirstIteration, M.FirstRevision, By;
    if m.LearningCompleted? { ConfidenceIsModest(m.considered); }
    if m.RevisionStarted? { ModestMean(s.learning.heuristics); }
  }

  lemma MemoryInRange(n: Notation, s: M.MState, e: Event, tick: nat)
    requires Scoring(s) && InRange(e.body)
    ensures var r := M.Step(n, s, e, tick); Scoring(r.state) && AllInRange(r.published)
  {
    hide M.OnPredictionResolved, M.Learn, M.Resolved, By;
    if e.body.OfMemory? && M.OfLoops(e.body.m) { LoopsInRange(n, s, e.body.m, e.time, tick); }
    if e.body.OfMemory? && e.body.m.PredictionResolved? { ResolutionInRange(s, e.body.m, e.time, tick); }
  }

  // ---------------------------------------------------------------- over whole runs

  lemma PublicationsInRange(v: Setting, o: OState, e: Event, tick: nat)
    requires Sensing(o.worldModel) && Valuing(o.executive) && Scoring(o.memory) && InRange(e.body)
    ensures AllInRange(Publications(v, o, e, tick))
    ensures var o' := Successor(v, o, e, tick); Sensing(o'.worldModel) && Valuing(o'.executive) && Scoring(o'.memory)
  {
    hide P.Step, W.Step, X.Step, G.Step, T.Step, M.Step, InRange, Sensing, Valuing, Scoring;
    PerceptionInRange(o.perception, e);
    WorldModelInRange(o.worldModel, e);
    ExecutiveInRange(Text(v), o.executive, e, tick);
    GovernorInRange(v.governor, o.governor, e, tick);
    ExecutorInRange(Text(v), v.behaviour, o.executor, e, tick);
    MemoryInRange(Text(v), o.memory, e, tick);
  }

  lemma StepKeepsRanges(v: Setting, p: Point, move: Move, e: Event)
    requires Ranging(p) && Possible(p, move) && HeadIs(p, e)
    ensures Ranging(Stepped(v, p, move, e))
  {
    hide Successor, Publications, InRange, Sensing, Valuing, Scoring, Outside, Reconfigures;
    if p.queue != [] {
      LogTurns(p);
      PublicationsInRange(v, p.o, e, p.ticks);
    }
    NothingOutOfRange();
    match move
    case Enter(body, _) => assert InRange(body) by { OutsideInRange(p.o, body); }
    case Next => assert Log(Moved(v, p, e)) == Log(p) + Publications(v, p.o, e, p.ticks);
    case Reboot => assert Log(Rebooted(p)) == Log(p);
    case Tear(n) => assert Log(Torn(v, p, e, n)) == Log(p) + Taken(Publications(v, p.o, e, p.ticks), n);
    case Configure(o) => ConfiguringKeepsRanges(p, o);
    case _ =>
  }

  lemma OutsideInRange(o: OState, body: Payload)
    requires Outside(o, body)
    ensures InRange(body)
  {
  }

  lemma ConfiguringKeepsRanges(p: Point, o: OState)
    requires Ranging(p) && Reconfigures(p.o, o)
    ensures Ranging(Configured(p, o))
  {
    hide InRange, BeliefsInRange;
  }

  lemma NothingOutOfRange()
    ensures Ranging(Birth())
  {
  }

  lemma RunsKeepRanges(v: Setting, moves: seq<Move>)
    requires Legal(v, moves)
    ensures Ranging(Here(v, moves))
  {
    hide Reached, Legal, Loses, Ranging, Possible, Affords, Stepped;
    var inv := (p: Point) => Ranging(p);
    NothingOutOfRange();
    forall p, move, e: Event | inv(p) && Possible(p, move) && HeadIs(p, e)
      ensures inv(Stepped(v, p, move, e)) {
      StepKeepsRanges(v, p, move, e);
    }
    LosesAnything(v, moves);
    RunsKeep(v, moves, AnyLoss, inv);
  }

  ghost predicate WithinBounds(o: OState) {
    && (forall id :: id in o.worldModel.beliefs ==> Unit(o.worldModel.beliefs[id].confidence))
    && (forall s :: s in o.worldModel.reliabilities ==> Unit(o.worldModel.reliabilities[s]))
    && (forall r <- o.memory.reliabilities :: Unit(r.reliability))
    && (forall h <- o.memory.learning.heuristics :: Modest(h.confidence))
    && (forall k <- o.memory.learning.longTerm :: Modest(k.consensus))
    && (forall x <- o.executive.stores.opportunities :: Unit(x.confidence) && 0.0 <= x.value <= 100.0)
    && (forall x <- o.executive.stores.plans :: x.attention == 1.0 && 0.0 <= x.capital <= 10.0)
  }

  /**
   In every run, live or replaying: every reliability, confidence, value and cost the organism holds is in
   its range, and no heuristic and no consensus ever reaches certainty.
   */
  lemma NumbersStayInRange(v: Setting, moves: seq<Move>)
    requires Legal(v, moves)
    ensures WithinBounds(Here(v, moves).o)
  {
    hide Reached, Legal;
    RunsKeepRanges(v, moves);
  }

  /** So no declaration of the default cost rule ever finds fault with a plan proposed in any run. */
  lemma CostRuleNeverRejects(v: Setting, moves: seq<Move>, n: Notation, rule: string, x: ExecutiveEvent)
    requires Legal(v, moves) && OfExecutive(x) in Log(Here(v, moves)) && x.PlanProposed? && RuleName(rule) == NON_NEGATIVE_COSTS
    ensures FindingFor(DefaultRules(n), G.PlanFacts(x), rule).Satisfied?
  {
    hide Here, Legal, Sensing, Valuing, Scoring, DefaultRules, ParseRule;
    RunsKeepRanges(v, moves);
    NonNegativeCostsRule(n, G.PlanFacts(x), ParseRule(rule).1);
    assert InRange(OfExecutive(x));
  }
}
