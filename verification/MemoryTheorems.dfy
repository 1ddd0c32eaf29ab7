/** What Memory's ledgers hold, told from the events, and what its learners claim. */
module MemoryTheorems {
  import opened Prelude
  import opened Events
  import opened Rules
  import opened MemoryModel

  /** The stores after a list of events, the first of them delivery number `tick`. */
  function Remember(n: Notation, s: MState, events: seq<Event>, tick: nat): MState {
    if events == [] then s
    else var k := |events| - 1; Step(n, Remember(n, s, events[..k], tick), events[k], tick + k).state
  }

  // ---------------------------------------------------------------- the ledgers hold what was delivered

  /** What is told of an action: its plan, whether it succeeded, what it said. */
  datatype Told = Told(actionId: Id, planId: Id, success: bool, text: string)

  function ResultIn(e: Event): Option<Told> {
    match e.body
    case OfExecutor(ActionSucceeded(action, plan, text)) => Some(Told(action, plan, true, text))
    case OfExecutor(ActionFailed(action, plan, text)) => Some(Told(action, plan, false, text))
    case _ => None
  }

  function ToldBy(o: Outcome): Option<Told> { Some(Told(o.actionId, o.planId, o.success, o.text)) }

  /** What is posted for an action: a unit of attention and of capital for a success, nothing for a failure. */
  datatype Posting = Posting(actionId: Id, attention: real, capital: real)

  function PostingIn(e: Event): Option<Posting> {
    match e.body
    case OfExecutor(ActionSucceeded(action, _, _)) => Some(Posting(action, -1.0, -1.0))
    case OfExecutor(ActionFailed(action, _, _)) => Some(Posting(action, 0.0, 0.0))
    case _ => None
  }

  function PostedBy(l: LedgerEntry): Option<Posting> { Some(Posting(l.actionId, l.deltaAttention, l.deltaCapital)) }

  function SpendIn(e: Event): Option<RecordedSpend> {
    match e.body
    case OfGovernor(ResearchSpendApproved(id, _, category, cost, _)) => Some(RecordedSpend(id, e.correlation, category, cost))
    case _ => None
  }

  function ScoreIn(e: Event): Option<Reliability> {
    match e.body
    case OfMemory(SensorReliabilityUpdated(sensor, reliability, considered)) => Some(Reliability(sensor, reliability, considered, e.time))
    case _ => None
  }

  ghost predicate Kept(n: Notation, s: MState, s': MState, events: seq<Event>) {
    && Project(s'.outcomes, ToldBy) == Project(s.outcomes, ToldBy) + Project(events, ResultIn)
    && Project(s'.entries, PostedBy) == Project(s.entries, PostedBy) + Project(events, PostingIn)
    && s'.spending == s.spending + Project(events, SpendIn)
    && s'.reliabilities == s.reliabilities + Project(events, ScoreIn)
  }

  lemma StepKeeps(n: Notation, s: MState, e: Event, tick: nat)
    ensures Kept(n, s, Step(n, s, e, tick).state, [e])
  {
    hide By, Learn, RescoredAll, Resolved, SensorsOf, FirstPrediction, Project;
    ProjectOne(e, ResultIn);
    ProjectOne(e, PostingIn);
    ProjectOne(e, SpendIn);
    ProjectOne(e, ScoreIn);
    var s' := Step(n, s, e, tick).state;
    if s'.outcomes != s.outcomes { ProjectSnoc(s.outcomes, s'.outcomes[|s.outcomes|], ToldBy); }
    if s'.entries != s.entries { ProjectSnoc(s.entries, s'.entries[|s.entries|], PostedBy); }
  }

  lemma KeptOn(n: Notation, s: MState, t: MState, u: MState, before: seq<Event>, after: seq<Event>)
    requires Kept(n, s, t, before) && Kept(n, t, u, after)
    ensures Kept(n, s, u, before + after)
  {
    hide Project;
    ProjectConcat(before, after, ResultIn);
    ProjectConcat(before, after, PostingIn);
    ProjectConcat(before, after, SpendIn);
    ProjectConcat(before, after, ScoreIn);
  }

  /**
   Over any events: the outcome ledger holds the results delivered, the action ledger what each costs, the research ledger
   the approvals at their cost, and the reliability ledger the scores, each in order.
   */
  lemma {:induction false} LedgersAreTold(n: Notation, s: MState, events: seq<Event>, tick: nat)
    ensures Kept(n, s, Remember(n, s, events, tick), events)
  {
    hide Step, Kept;
    if events == [] {
      NothingKept(n, s);
    } else {
      var k := |events| - 1;
      LedgersAreTold(n, s, events[..k], tick);
      StepKeeps(n, Remember(n, s, events[..k], tick), events[k], tick + k);
      KeptOn(n, s, Remember(n, s, events[..k], tick), Remember(n, s, events, tick), events[..k], [events[k]]);
      assert events == events[..k] + [events[k]];
    }
  }

  lemma NothingKept(n: Notation, s: MState)
    ensures Kept(n, s, s, [])
  {
    assert s.spending + [] == s.spending && s.reliabilities + [] == s.reliabilities;
    assert Project(s.outcomes, ToldBy) + [] == Project(s.outcomes, ToldBy) && Project(s.entries, PostedBy) + [] == Project(s.entries, PostedBy);
  }

  // ---------------------------------------------------------------- attribution

  /** The sensor behind a belief: the provenance the last event about it gave. */
  function BehindBelief(s: MState, events: seq<Event>, belief: string): Option<string> {
    if events == [] then Lookup(s.sensors.ofBelief, belief)
    else
      var body := events[|events| - 1].body;
      if body.OfWorldModel? && body.w.beliefId == belief then Some(body.w.provenance) else BehindBelief(s, events[..|events| - 1], belief)
  }

  /** The sensors behind an opportunity: those behind its beliefs when it was identified, in order. */
  function BehindOpportunity(s: MState, events: seq<Event>, opportunity: Id): Option<seq<string>> {
    if events == [] then Lookup(s.sensors.ofOpportunity, opportunity)
    else
      var before, body := events[..|events| - 1], events[|events| - 1].body;
      match body
      case OfExecutive(OpportunityIdentified(id, beliefIds, _)) =>
        if id == opportunity then Some(Project(beliefIds, b => BehindBelief(s, before, b))) else BehindOpportunity(s, before, opportunity)
      case _ => BehindOpportunity(s, before, opportunity)
  }

  /** The sensors behind a plan: those behind its opportunity when it was proposed, or none. */
  function BehindPlan(s: MState, events: seq<Event>, plan: Id): Option<seq<string>> {
    if events == [] then Lookup(s.sensors.ofPlan, plan)
    else
      var before, body := events[..|events| - 1], events[|events| - 1].body;
      match body
      case OfExecutive(PlanProposed(id, opportunity, _, _, _, _)) =>
        if id == plan then Some(BehindOpportunity(s, before, opportunity).GetOr([])) else BehindPlan(s, before, plan)
      case _ => BehindPlan(s, before, plan)
  }

  lemma {:induction false} ProjectSame<T, U>(xs: seq<T>, f: T -> Option<U>, g: T -> Option<U>)
    requires forall x <- xs :: f(x) == g(x)
    ensures Project(xs, f) == Project(xs, g)
  {
    if xs != [] { ProjectSame(xs[1..], f, g); }
  }

  /** What one event makes of the attributions. */
  function Attributed(a: Attribution, body: Payload): Attribution {
    match body
    case OfWorldModel(w) => a.(ofBelief := a.ofBelief[w.beliefId := w.provenance])
    case OfExecutive(OpportunityIdentified(id, beliefIds, _)) => a.(ofOpportunity := a.ofOpportunity[id := Project(beliefIds, SensorBehind(a.ofBelief))])
    case OfExecutive(PlanProposed(id, opportunity, _, _, _, _)) => a.(ofPlan := a.ofPlan[id := Lookup(a.ofOpportunity, opportunity).GetOr([])])
    case _ => a
  }

  lemma AttributionStep(n: Notation, s: MState, e: Event, tick: nat)
    ensures Step(n, s, e, tick).state.sensors == Attributed(s.sensors, e.body)
  {
    hide By, Learn, RescoredAll, Resolved, SensorsOf, FirstPrediction, Project;
  }

  /** Over any events: a plan's sensors are those behind its opportunity, and an opportunity's those behind its beliefs, at the time. */
  lemma {:induction false} AttributionIsTold(n: Notation, s: MState, events: seq<Event>, tick: nat, belief: string, opportunity: Id, plan: Id)
    ensures var sensors := Remember(n, s, events, tick).sensors;
            && Lookup(sensors.ofBelief, belief) == BehindBelief(s, events, belief)
            && Lookup(sensors.ofOpportunity, opportunity) == BehindOpportunity(s, events, opportunity)
            && Lookup(sensors.ofPlan, plan) == BehindPlan(s, events, plan)
  {
    hide By, Project, Step;
    if events != [] {
      var k := |events| - 1;
      var before, e := Remember(n, s, events[..k], tick), events[k];
      AttributionIsTold(n, s, events[..k], tick, belief, opportunity, plan);
      AttributionStep(n, before, e, tick + k);
      if e.body.OfExecutive? && e.body.x.OpportunityIdentified? {
        var beliefIds := e.body.x.beliefIds;
        forall b | b in beliefIds ensures SensorBehind(before.sensors.ofBelief)(b) == BehindBelief(s, events[..k], b) {
          AttributionIsTold(n, s, events[..k], tick, b, opportunity, plan);
        }
        ProjectSame(beliefIds, SensorBehind(before.sensors.ofBelief), b => BehindBelief(s, events[..k], b));
      } else if e.body.OfExecutive? && e.body.x.PlanProposed? {
        AttributionIsTold(n, s, events[..k], tick, belief, e.body.x.opportunityId, plan);
      }
    }
  }

  // ---------------------------------------------------------------- how much the learners claim

  /** n lessons make a confidence of n in n + 5, short of 0.99. */
  predicate Calibrated(confidence: real, considered: nat) {
    if considered < 495 then confidence * (considered as real + 5.0) == considered as real else confidence == 0.99
  }

  /** A quotient compares with a bound as its dividend does. */
  lemma QuotientCompares(total: real, n: real, bound: real)
    requires n > 0.0
    ensures total / n * n == total && (total / n < bound <==> total < bound * n)
  {
    var q := total / n;
    assert q * n == total;
    if q < bound { Scales(q, bound, n); }
    if q > bound { Scales(bound, q, n); }
  }

  lemma ConfidenceIsCalibrated(considered: nat)
    ensures Calibrated(Confidence(considered), considered)
  {
    QuotientCompares(considered as real, (considered + 5) as real, 0.99);
  }

  /** A lesson learned is a heuristic, as sure as the resolutions behind it are many; every third starts a revision with its error. */
  lemma LessonsAreCalibrated(n: Notation, s: MState, e: Event, tick: nat)
    requires e.body.OfMemory? && e.body.m.LearningCompleted? && FirstIteration(s.learning.iterations, e.body.m.iterationId).Some?
    ensures var r, m, hs := Step(n, s, e, tick), e.body.m, s.learning.heuristics;
            && |r.state.learning.heuristics| == |hs| + 1 && hs <= r.state.learning.heuristics
            && r.state.learning.heuristics[|hs|].id == m.heuristicId && Calibrated(r.state.learning.heuristics[|hs|].confidence, m.considered)
            && if (|hs| + 1) % 3 == 0
               then |r.published| == 1 && r.published[0].OfMemory? && r.published[0].m.RevisionStarted?
                    && r.published[0].m.considered == |hs| + 1 && r.published[0].m.meanError == m.meanError
               else r.published == []
  {
    hide By, FirstIteration, Confidence;
    ConfidenceIsCalibrated(e.body.m.considered);
  }

  /** A revision ends in knowledge held with the mean of the heuristics' confidences. */
  lemma ConsensusIsMean(n: Notation, s: MState, e: Event, tick: nat)
    requires e.body.OfMemory? && e.body.m.RevisionStarted?
    ensures var ps, hs := Step(n, s, e, tick).published, s.learning.heuristics;
            && |ps| == 1 && ps[0].OfMemory? && ps[0].m.RevisionCompleted?
            && if hs == [] then ps[0].m.consensus == 0.0 else ps[0].m.consensus * |hs| as real == Sum(hs, (h: Heuristic) => h.confidence)
  {
    hide By, Sum;
    var hs := s.learning.heuristics;
    SumSame(hs, ConfidenceOf, (h: Heuristic) => h.confidence);
    if hs != [] { QuotientCompares(Sum(hs, ConfidenceOf), |hs| as real, 0.0); }
  }

  lemma {:induction false} SumSame<T>(xs: seq<T>, f: T -> real, g: T -> real)
    requires forall x <- xs :: f(x) == g(x)
    ensures Sum(xs, f) == Sum(xs, g)
  {
    if xs != [] { SumSame(xs[1..], f, g); }
  }
}
