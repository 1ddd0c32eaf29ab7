/** The views kept of Memory's findings agree with Memory's own ledgers, live and replayed. */
module Replicas {
  import opened Prelude
  import opened Events
  import opened Rules
  import opened KernelModel
  import opened Organism
  import opened Runs
  import opened Openings
  import G = GovernorModel
  import M = MemoryModel
  import P = PerceptionModel
  import W = WorldModelModel
  import X = ExecutiveModel
  import T = ExecutorModel

  function SensorOf(r: M.Reliability): string { r.sensorId }

  /** `SensorReliabilityLedger.latest_for`, or full trust. */
  function LatestReliability(ledger: seq<M.Reliability>, sensor: string): real {
    match Lookup(Latest(ledger, SensorOf), sensor)
    case None => 1.0
    case Some(r) => r.reliability
  }

  function KnowledgeFrom(k: M.LongTerm): G.Knowledge {
    G.Knowledge(k.id, k.kind, k.summary, k.consensus, k.considered, k.created)
  }

  function OfKind(anti: bool): M.LongTerm -> Option<G.Knowledge> {
    (k: M.LongTerm) => if (k.kind == G.ANTI_PATTERN) == anti then Some(KnowledgeFrom(k)) else None
  }

  /** Memory's long-term knowledge of one kind, as the Governor would hold it. */
  function Distilled(longTerm: seq<M.LongTerm>, anti: bool): map<Id, G.Knowledge> {
    Latest(Project(longTerm, OfKind(anti)), G.KnowledgeId)
  }

  ghost predicate Agree(o: OState) {
    && (forall sensor :: W.ReliabilityOf(o.worldModel, sensor) == LatestReliability(o.memory.reliabilities, sensor))
    && o.governor.antiPatterns == Distilled(o.memory.learning.longTerm, true)
    && o.governor.playbooks == Distilled(o.memory.learning.longTerm, false)
  }

  predicate CompletesRevision(p: Payload) {
    p.OfMemory? && p.m.RevisionCompleted?
  }

  // ---------------------------------------------------------------- one delivery

  lemma ReliabilitiesFollow(w: W.WState, ledger: seq<M.Reliability>, m: MemoryEvent, time: real, sensor: string)
    requires m.SensorReliabilityUpdated?
    requires W.ReliabilityOf(w, sensor) == LatestReliability(ledger, sensor)
    ensures W.ReliabilityOf(W.OnReliabilityUpdated(w, m), sensor)
         == LatestReliability(ledger + [M.Reliability(m.sensorId, m.reliability, m.considered, time)], sensor)
  {
    LatestSnoc(ledger, M.Reliability(m.sensorId, m.reliability, m.considered, time), SensorOf);
  }

  lemma KnowledgeFollows(longTerm: seq<M.LongTerm>, k: M.LongTerm, anti: bool)
    ensures Distilled(longTerm + [k], anti)
         == if (k.kind == G.ANTI_PATTERN) == anti then Distilled(longTerm, anti)[k.id := KnowledgeFrom(k)] else Distilled(longTerm, anti)
  {
    ProjectSnoc(longTerm, k, OfKind(anti));
    if (k.kind == G.ANTI_PATTERN) == anti {
      LatestSnoc(Project(longTerm, OfKind(anti)), KnowledgeFrom(k), G.KnowledgeId);
    } else {
      assert Project(longTerm, OfKind(anti)) + [] == Project(longTerm, OfKind(anti));
    }
  }

  /** The World Model's view changes only when told; Memory's ledger only when it tells. */
  lemma ReliabilityStep(v: Setting, o: OState, e: Event, tick: nat, sensor: string)
    requires W.ReliabilityOf(o.worldModel, sensor) == LatestReliability(o.memory.reliabilities, sensor)
    ensures W.ReliabilityOf(W.Step(o.worldModel, e).state, sensor) == LatestReliability(M.Step(Text(v), o.memory, e, tick).state.reliabilities, sensor)
  {
    hide M.Record, M.Learn, M.OnPredictionResolved, M.OnOutcomeRecorded, LatestReliability, By, W.BeliefId, W.Clamp;
    if e.body.OfMemory? && e.body.m.SensorReliabilityUpdated? {
      ReliabilitiesFollow(o.worldModel, o.memory.reliabilities, e.body.m, e.time, sensor);
    } else {
      ReliabilityApart(v, o, e, tick, sensor);
    }
  }

  lemma ReliabilityApart(v: Setting, o: OState, e: Event, tick: nat, sensor: string)
    requires !(e.body.OfMemory? && e.body.m.SensorReliabilityUpdated?)
    ensures M.Step(Text(v), o.memory, e, tick).state.reliabilities == o.memory.reliabilities
    ensures W.Step(o.worldModel, e).state.reliabilities == o.worldModel.reliabilities
  {
    hide M.Learn, M.SensorsOf, M.RescoredAll, M.Resolved, By, W.BeliefId, W.Clamp;
  }

  lemma LongTermApart(n: Notation, s: M.MState, e: Event, tick: nat)
    requires !(e.body.OfMemory? && e.body.m.RevisionCompleted?)
    ensures M.Step(n, s, e, tick).state.learning.longTerm == s.learning.longTerm
  {
    hide M.Record, M.OnPredictionResolved, M.OnOutcomeRecorded, M.MeanError, M.Consensus, M.Confidence, M.Resolved, By;
    if e.body.OfMemory? && e.body.m.PredictionResolved? { ResolvingLeavesLearning(s, e.body.m, e.time, tick); }
    if e.body.OfMemory? && e.body.m.OutcomeRecorded? { ClaimingLeavesLearning(s, e.body.m); }
  }

  lemma ResolvingLeavesLearning(s: M.MState, m: MemoryEvent, time: real, tick: nat)
    requires m.PredictionResolved?
    ensures M.OnPredictionResolved(s, m, time, tick).state.learning == s.learning
  {
    hide M.RescoredAll, M.SensorsOf, M.Resolved, By;
  }

  lemma ClaimingLeavesLearning(s: M.MState, m: MemoryEvent)
    requires m.OutcomeRecorded?
    ensures M.OnOutcomeRecorded(s, m).state.learning == s.learning
  {
  }

  lemma KnowledgeApart(v: G.Env, s: G.GState, e: Event, tick: nat)
    requires !(e.body.OfMemory? && e.body.m.RevisionCompleted?)
    ensures var s' := G.Step(v, s, e, tick).state; s'.antiPatterns == s.antiPatterns && s'.playbooks == s.playbooks
  {
    hide G.OnPlanProposed, G.OnResearchSpendRequested, G.OnGovernance, By;
  }

  /** A piece of knowledge reaches Memory's store and the Governor's view in the same delivery. */
  lemma KnowledgeArrives(s: G.GState, l: M.Learning, m: MemoryEvent, time: real)
    requires m.RevisionCompleted? && M.FirstRevision(l.revisions, m.revisionId).Some?
    requires s.antiPatterns == Distilled(l.longTerm, true) && s.playbooks == Distilled(l.longTerm, false)
    ensures var s', l' := G.OnRevisionCompleted(s, m, time).state, M.OnRevisionCompleted(l, m, time).state;
            s'.antiPatterns == Distilled(l'.longTerm, true) && s'.playbooks == Distilled(l'.longTerm, false)
  {
    hide Distilled;
    var k := M.LongTerm(m.knowledgeId, m.summary, m.knowledgeType, m.consensus, m.considered, time);
    KnowledgeFollows(l.longTerm, k, true);
    KnowledgeFollows(l.longTerm, k, false);
  }

  lemma KnowledgeStep(v: Setting, o: OState, e: Event, tick: nat)
    requires o.governor.antiPatterns == Distilled(o.memory.learning.longTerm, true) && o.governor.playbooks == Distilled(o.memory.learning.longTerm, false)
    requires CompletesRevision(e.body) ==> M.FirstRevision(o.memory.learning.revisions, e.body.m.revisionId).Some?
    ensures var s', l' := G.Step(v.governor, o.governor, e, tick).state, M.Step(Text(v), o.memory, e, tick).state.learning;
            s'.antiPatterns == Distilled(l'.longTerm, true) && s'.playbooks == Distilled(l'.longTerm, false)
  {
    hide Distilled, G.OnPlanProposed, G.OnResearchSpendRequested, G.OnGovernance, G.OnRevisionCompleted,
         M.OnPrediction, M.OnAction,
         M.OnExecutive, M.OnRevisionCompleted, M.OnResearchSpendApproved, M.OnBelief, By;
    if CompletesRevision(e.body) {
      KnowledgeArrives(o.governor, o.memory.learning, e.body.m, e.time);
    } else {
      LongTermApart(Text(v), o.memory, e, tick);
      KnowledgeApart(v.governor, o.governor, e, tick);
    }
  }

  /** Any delivery, live or replayed, keeps the views in step, as long as what it completes was started. */
  lemma DeliveryKeepsAgreement(v: Setting, o: OState, e: Event, tick: nat)
    requires Agree(o)
    requires CompletesRevision(e.body) ==> M.FirstRevision(o.memory.learning.revisions, e.body.m.revisionId).Some?
    ensures Agree(Successor(v, o, e, tick))
  {
    hide P.Step, W.Step, X.Step, G.Step, T.Step, M.Step, Distilled, LatestReliability, W.ReliabilityOf, M.FirstRevision;
    forall sensor ensures W.ReliabilityOf(W.Step(o.worldModel, e).state, sensor) == LatestReliability(M.Step(Text(v), o.memory, e, tick).state.reliabilities, sensor) {
      ReliabilityStep(v, o, e, tick, sensor);
    }
    KnowledgeStep(v, o, e, tick);
  }

  // ---------------------------------------------------------------- over whole runs

  ghost predicate Agreeing(p: Point) {
    InOrder(p) && Agree(p.o)
  }

  lemma HeadKeepsAgreement(v: Setting, p: Point, e: Event)
    requires Agreeing(p) && p.queue != [] && HeadIs(p, e)
    ensures Agree(Successor(v, p.o, e, p.ticks))
  {
    hide Agree, Successor, InOrder;
    if CompletesRevision(e.body) {
      HeadIsFound(p);
      RevisionFound(p.o.memory.learning.revisions, e.body.m.revisionId);
    }
    DeliveryKeepsAgreement(v, p.o, e, p.ticks);
  }

  lemma StepKeepsAgreement(v: Setting, p: Point, move: Move, e: Event)
    requires Agreeing(p) && Possible(p, move) && HeadIs(p, e)
    ensures Agreeing(Stepped(v, p, move, e))
  {
    hide InOrder, Agree, Publications, Successor, Outside, Reconfigures;
    StepStaysInOrder(v, p, move, e);
    NothingToAgreeOn();
    match move
    case Next => HeadKeepsAgreement(v, p, e);
    case Hear => HeadKeepsAgreement(v, p, e);
    case Configure(o) => ConfiguringKeepsAgreement(p.o, o);
    case _ =>
  }

  lemma ConfiguringKeepsAgreement(o: OState, o': OState)
    requires Agree(o) && Reconfigures(o, o')
    ensures Agree(o')
  {
    hide LatestReliability, Distilled, BeliefsInRange;
  }

  lemma NothingToAgreeOn()
    ensures Agree(Organism.Initial())
  {
  }

  /**
   At every dispatch boundary of every run, live or replaying, whatever was lost: the World Model's reliability
   for each sensor is Memory's latest recorded one (full trust if none), and the Governor's anti-patterns and
   playbooks are exactly Memory's long-term knowledge, split by kind.
   */
  lemma ViewsAgree(v: Setting, moves: seq<Move>)
    requires Legal(v, moves)
    ensures Agree(Here(v, moves).o)
  {
    hide Reached, Legal, Loses, InOrder, Agree, Possible, Affords, Stepped;
    var inv := (p: Point) => Agreeing(p);
    BornInOrder();
    NothingToAgreeOn();
    forall p, move, e: Event | inv(p) && Possible(p, move) && HeadIs(p, e)
      ensures inv(Stepped(v, p, move, e)) {
      StepKeepsAgreement(v, p, move, e);
    }
    LosesAnything(v, moves);
    RunsKeep(v, moves, AnyLoss, inv);
  }
}
