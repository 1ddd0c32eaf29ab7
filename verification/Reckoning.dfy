/** What Memory learns is true of what happened: resolutions, scores, errors, knowledge. */
module Reckoning {
  import opened Prelude
  import opened Events
  import opened Rules
  import opened KernelModel
  import opened Organism
  import opened Runs
  import opened Causality
  import opened Identities
  import Ranges
  import O = Openings
  import P = PerceptionModel
  import W = WorldModelModel
  import X = ExecutiveModel
  import G = GovernorModel
  import T = ExecutorModel
  import M = MemoryModel

  // ---------------------------------------------------------------- outcomes have their own ids

  predicate Outcomes(p: Payload) { p.OfMemory? && p.m.OutcomeRecorded? }

  function OutcomeName(p: Payload): Option<Id> {
    if Outcomes(p) then Some(p.m.outcomeId) else None
  }

  lemma MemoryRecordsOne(n: Notation, s: M.MState, e: Event, tick: nat)
    ensures One(M.Step(n, s, e, tick).published, OutcomeName, tick)
  {
    hide By, M.Learn, M.OnPrediction, M.OnOpportunityIdentified, CausesMemory;
    if e.body.OfMemory? { LoopsRecordNone(n, s, e.body.m, e.time, tick); }
  }

  lemma LoopsRecordNone(n: Notation, s: M.MState, m: MemoryEvent, time: real, tick: nat)
    ensures forall p <- M.OnOwn(n, s, m, time, tick).published :: !Outcomes(p)
  {
    hide M.OnOwn;
    var e := Event(OfMemory(m), Minting(0), time);
    MemoriesAreCaused(n, s, e, tick);
    assert M.Step(n, s, e, tick).published == M.OnOwn(n, s, m, time, tick).published;
  }

  lemma DeliveryRecordsOne(v: Setting, o: OState, e: Event, tick: nat)
    ensures One(Publications(v, o, e, tick), OutcomeName, tick)
  {
    hide P.Step, W.Step, X.Step, G.Step, T.Step, M.Step, Publications, One;
    var before, after := ExecutorsPart(v, o, e, tick);
    var own := T.Step(Text(v), v.behaviour, o.executor, e, tick).published;
    EachPublishesItsOwn(v, o, e, tick);
    MemoryRecordsOne(Text(v), o.memory, e, tick);
    OneAmong(before + own, after, [], OutcomeName, tick);
    assert before + own + after + [] == before + own + after;
  }

  // ---------------------------------------------------------------- the ledger of predictions comes from the log

  predicate Predicts(p: Payload, id: Id, plan: Id, predicted: real) {
    p.OfMemory? && p.m.PredictionRecorded? && p.m.predictionId == id && p.m.planId == plan && p.m.predicted == predicted
  }

  ghost predicate Predicted(log: seq<Payload>, id: Id, plan: Id, predicted: real) {
    exists p <- log :: Predicts(p, id, plan, predicted)
  }

  /** The resolution the record was made of. */
  predicate Resolves(p: Payload, r: M.Prediction) {
    && p.OfMemory? && p.m.PredictionResolved? && p.m.predictionId == r.id && p.m.planId == r.planId && p.m.predicted == r.predicted
    && r.outcomeId == Some(p.m.outcomeId) && r.actual == Some(p.m.actual) && r.miss == Some(p.m.miss)
  }

  ghost predicate Filed(log: seq<Payload>, r: M.Prediction) {
    if r.resolved then exists p <- log :: Resolves(p, r)
    else Predicted(log, r.id, r.planId, r.predicted) && r.miss == None
  }

  ghost predicate LedgerFiled(log: seq<Payload>, s: M.MState) {
    && (forall r <- s.predictions :: Filed(log, r))
    && (forall plan :: plan in s.pending ==> s.pending[plan].planId == plan && Predicted(log, s.pending[plan].id, plan, s.pending[plan].predicted))
  }

  /** What is resolved was predicted, at that value. */
  ghost predicate ResolvesPredicted(log: seq<Payload>, p: Payload) {
    p.OfMemory? && p.m.PredictionResolved? ==> Predicted(log, p.m.predictionId, p.m.planId, p.m.predicted)
  }

  lemma FiledStill(log: seq<Payload>, more: seq<Payload>, s: M.MState)
    requires LedgerFiled(log, s)
    ensures LedgerFiled(log + more, s)
  {
    hide Predicts, Resolves;
    assert forall p <- log :: p in log + more;
    forall r | r in s.predictions ensures Filed(log + more, r) { assert Filed(log, r); }
  }

  lemma MemoryFiles(n: Notation, s: M.MState, e: Event, tick: nat, log: seq<Payload>)
    requires LedgerFiled(log, s) && e.body in log
    ensures LedgerFiled(log, M.Step(n, s, e, tick).state)
  {
    hide By, M.Learn, M.RescoredAll, M.Resolved, M.SensorsOf, M.FirstPrediction, M.Record, Predicted, Filed;
    if e.body.OfMemory? && e.body.m.PredictionRecorded? { RecordingFiles(s, e.body.m, e.time, log); }
    if e.body.OfMemory? && e.body.m.PredictionResolved? { ResolvingFiles(s, e.body.m, e.time, tick, log); }
  }

  lemma RecordingFiles(s: M.MState, m: MemoryEvent, time: real, log: seq<Payload>)
    requires LedgerFiled(log, s) && m.PredictionRecorded? && OfMemory(m) in log
    ensures LedgerFiled(log, M.OnPredictionRecorded(s, m, time).state)
  {
    assert Predicts(OfMemory(m), m.predictionId, m.planId, m.predicted);
  }

  lemma ResolvingFiles(s: M.MState, m: MemoryEvent, time: real, tick: nat, log: seq<Payload>)
    requires LedgerFiled(log, s) && m.PredictionResolved? && OfMemory(m) in log
    ensures LedgerFiled(log, M.OnPredictionResolved(s, m, time, tick).state)
  {
    hide By, M.RescoredAll, M.Resolved, M.SensorsOf, Predicts;
    var s' := M.OnPredictionResolved(s, m, time, tick).state;
    if s' != s {
      var r := s'.predictions[|s.predictions|];
      assert s'.predictions == s.predictions + [r] && Resolves(OfMemory(m), r);
    }
  }

  lemma MemoryResolves(n: Notation, s: M.MState, e: Event, tick: nat, log: seq<Payload>)
    requires LedgerFiled(log, s)
    ensures forall p <- M.Step(n, s, e, tick).published :: ResolvesPredicted(log, p)
  {
    hide By, M.Learn, M.OnPredictionResolved, M.OnOpportunityIdentified, M.OnReliabilityUpdated, Predicted, Filed, CausesMemory;
    if e.body.OfMemory? && !e.body.m.OutcomeRecorded? { OnlyOutcomesResolve(n, s, e, tick); }
  }

  lemma OnlyOutcomesResolve(n: Notation, s: M.MState, e: Event, tick: nat)
    requires !Outcomes(e.body)
    ensures forall p <- M.Step(n, s, e, tick).published :: !(p.OfMemory? && p.m.PredictionResolved?)
  {
    hide M.Step;
    MemoriesAreCaused(n, s, e, tick);
  }

  lemma DeliveryResolves(v: Setting, o: OState, e: Event, tick: nat, log: seq<Payload>)
    requires LedgerFiled(log, o.memory) && e.body in log
    ensures forall p <- Publications(v, o, e, tick) :: ResolvesPredicted(log, p)
    ensures LedgerFiled(log, Successor(v, o, e, tick).memory)
  {
    hide P.Step, W.Step, X.Step, G.Step, T.Step, M.Step, Predicted, LedgerFiled;
    EachPublishesItsOwn(v, o, e, tick);
    MemoryFiles(Text(v), o.memory, e, tick, log);
    MemoryResolves(Text(v), o.memory, e, tick, log);
  }

  // ---------------------------------------------------------------- over whole runs

  ghost predicate AllResolvePredicted(log: seq<Payload>) {
    forall p <- log :: ResolvesPredicted(log, p)
  }

  ghost predicate Reckoned(p: Point) {
    && Own(Log(p), OutcomeName) && Earlier(Log(p), OutcomeName, p.ticks) && LedgerFiled(Log(p), p.o.memory) && AllResolvePredicted(Log(p))
  }

  lemma PredictedStill(log: seq<Payload>, more: seq<Payload>)
    requires AllResolvePredicted(log) && forall p <- more :: ResolvesPredicted(log, p)
    ensures AllResolvePredicted(log + more)
  {
    hide Predicts;
    forall p | p in log + more ensures ResolvesPredicted(log + more, p) {
      assert ResolvesPredicted(log, p);
      assert forall q <- log :: q in log + more;
    }
  }

  lemma DeliveryReckons(v: Setting, p: Point, e: Event, n: nat)
    requires Reckoned(p) && p.queue != [] && HeadIs(p, e)
    ensures Reckoned(Moved(v, p, e)) && Reckoned(Torn(v, p, e, n)) && Reckoned(Heard(v, p, e)) && Reckoned(Dropped(p))
  {
    hide Publications, Successor, Own, Earlier, LedgerFiled, AllResolvePredicted, One, ResolvesPredicted;
    var pubs, log := Publications(v, p.o, e, p.ticks), Log(p);
    LogTurns(p);
    DeliveryResolves(v, p.o, e, p.ticks, log);
    DeliveryRecordsOne(v, p.o, e, p.ticks);
    OneSoFar(pubs, n, OutcomeName, p.ticks);
    OwnGrows(log, pubs, OutcomeName, p.ticks);
    OwnGrows(log, Taken(pubs, n), OutcomeName, p.ticks);
    PredictedStill(log, pubs);
    assert forall q <- Taken(pubs, n) :: q in pubs;
    PredictedStill(log, Taken(pubs, n));
    FiledStill(log, pubs, Successor(v, p.o, e, p.ticks).memory);
    BlankLedger(log + Taken(pubs, n));
    Later(log, OutcomeName, p.ticks);
    assert Log(Moved(v, p, e)) == log + pubs;
    assert Log(Torn(v, p, e, n)) == log + Taken(pubs, n);
    assert Log(Heard(v, p, e)) == log && Log(Dropped(p)) == log;
  }

  lemma BlankLedger(log: seq<Payload>)
    ensures LedgerFiled(log, M.Initial())
  {
  }

  lemma EnteringReckons(p: Point, body: Payload)
    requires Reckoned(p) && Outside(p.o, body)
    ensures Reckoned(Entered(p, body))
  {
    hide LedgerFiled, Predicted, Own, Earlier;
    FiledStill(Log(p), [body], p.o.memory);
    PredictedStill(Log(p), [body]);
    OwnStays(Log(p), body, OutcomeName, p.ticks);
    assert Log(Entered(p, body)) == Log(p) + [body];
  }

  lemma StepReckons(v: Setting, p: Point, move: Move, e: Event)
    requires Reckoned(p) && Possible(p, move) && HeadIs(p, e)
    ensures Reckoned(Stepped(v, p, move, e))
  {
    hide Reckoned, Moved, Heard, Torn, Dropped, Outside, Reconfigures;
    match move
    case Enter(body, _) => EnteringReckons(p, body);
    case Next => DeliveryReckons(v, p, e, 0);
    case Drop => DeliveryReckons(v, p, e, 0);
    case Reboot => RebootingReckons(p);
    case Tear(n) => DeliveryReckons(v, p, e, n);
    case Hear => DeliveryReckons(v, p, e, 0);
    case Configure(o) => ConfiguringReckons(p, o);
  }

  lemma RebootingReckons(p: Point)
    requires Reckoned(p)
    ensures Reckoned(Rebooted(p))
  {
    hide Own, Earlier, AllResolvePredicted;
    BlankLedger(Log(p));
    assert Log(Rebooted(p)) == Log(p);
  }

  lemma ConfiguringReckons(p: Point, o: OState)
    requires Reckoned(p) && Reconfigures(p.o, o)
    ensures Reckoned(Configured(p, o))
  {
    hide Own, Earlier, AllResolvePredicted, LedgerFiled, BeliefsInRange;
    assert Log(Configured(p, o)) == Log(p);
  }

  lemma NothingToReckon()
    ensures Reckoned(Birth())
  {
  }

  lemma RunsReckon(v: Setting, moves: seq<Move>)
    requires Legal(v, moves)
    ensures Reckoned(Here(v, moves))
  {
    hide Reached, Legal, Loses, Reckoned, Possible, Affords, Stepped;
    var inv := (p: Point) => Reckoned(p);
    NothingToReckon();
    forall p, move, e: Event | inv(p) && Possible(p, move) && HeadIs(p, e)
      ensures inv(Stepped(v, p, move, e)) {
      StepReckons(v, p, move, e);
    }
    LosesAnything(v, moves);
    RunsKeep(v, moves, AnyLoss, inv);
  }

  // ---------------------------------------------------------------- resolutions are true to the outcomes recorded

  predicate Resolution(p: Payload) { p.OfMemory? && p.m.PredictionResolved? }

  /** A resolution by an outcome: of its plan, true to its success, and of a prediction that was recorded. */
  ghost predicate TrueTo(log: seq<Payload>, resolution: Payload, outcome: Payload) {
    Resolution(resolution) && Outcomes(outcome) && resolution.m.outcomeId == outcome.m.outcomeId ==>
      && resolution.m.planId == outcome.m.planId && IsProved(resolution.m, outcome.m.success)
      && Predicted(log, resolution.m.predictionId, resolution.m.planId, resolution.m.predicted)
  }

  /** The outcome a resolution names was recorded before it. */
  ghost predicate Follows(log: seq<Payload>, i: nat) {
    i < |log| && Resolution(log[i]) ==> exists j: nat :: j < i && Outcomes(log[j]) && log[j].m.outcomeId == log[i].m.outcomeId
  }

  lemma ResolutionIsCaused(log: seq<Payload>, i: nat) returns (j: nat)
    requires Justified(log) && i < |log| && Resolution(log[i])
    ensures j < i && Outcomes(log[j]) && log[j].m.outcomeId == log[i].m.outcomeId
    ensures log[j].m.planId == log[i].m.planId && IsProved(log[i].m, log[j].m.success)
  {
    assert CausedBefore(log, i, log[i]);
    j :| j < i && j < |log| && Causes(log[j], log[i]);
  }

  /**
   In every run: a resolution follows the outcome it names, and with every outcome recorded under that id it is of the
   outcome's plan, resolves a prediction as it was recorded, and has the predicted value as actual and no error if the outcome
   is a success, nothing as actual and the whole value as error if it is a failure.
   */
  lemma ResolutionsAreTrue(v: Setting, moves: seq<Move>, i: nat, resolution: Payload, outcome: Payload)
    requires Legal(v, moves)
    ensures Follows(Log(Here(v, moves)), i)
    ensures resolution in Log(Here(v, moves)) && outcome in Log(Here(v, moves)) ==> TrueTo(Log(Here(v, moves)), resolution, outcome)
  {
    hide Here, Legal, LedgerFiled, Earlier, Justified, Predicted;
    var log := Log(Here(v, moves));
    RunsReckon(v, moves);
    RunsStayJustified(v, moves);
    if i < |log| && Resolution(log[i]) { var j := ResolutionIsCaused(log, i); }
    if resolution in log && outcome in log && Resolution(resolution) && Outcomes(outcome) && resolution.m.outcomeId == outcome.m.outcomeId {
      var k: nat :| k < |log| && log[k] == resolution;
      var j := ResolutionIsCaused(log, k);
      Unique(log, log[j], outcome, OutcomeName);
      assert ResolvesPredicted(log, resolution);
    }
  }

  // ---------------------------------------------------------------- reliabilities are shares of successes

  ghost predicate Succeeded(log: seq<Payload>, outcome: Option<Id>) {
    exists p <- log :: Outcomes(p) && Some(p.m.outcomeId) == outcome && p.m.success
  }

  /** The resolution was right: its outcome succeeded, or nothing was predicted. */
  ghost predicate Right(log: seq<Payload>, r: M.Prediction) {
    Succeeded(log, r.outcomeId) || r.predicted == 0.0
  }

  ghost predicate RightNow(log: seq<Payload>, m: MemoryEvent)
    requires m.PredictionResolved?
  {
    Succeeded(log, Some(m.outcomeId)) || m.predicted == 0.0
  }

  /** The error of a resolution on the log, by the success of its outcome. */
  lemma MissTells(log: seq<Payload>, m: MemoryEvent)
    requires Justified(log) && Own(log, OutcomeName) && m.PredictionResolved? && OfMemory(m) in log
    ensures m.miss == if Succeeded(log, Some(m.outcomeId)) then 0.0 else -m.predicted
  {
    hide Justified, Own;
    var i: nat :| i < |log| && log[i] == OfMemory(m);
    var j := ResolutionIsCaused(log, i);
    assert log[j] in log;
    if p :| p in log && Outcomes(p) && Some(p.m.outcomeId) == Some(m.outcomeId) && p.m.success { Unique(log, log[j], p, OutcomeName); }
  }

  lemma RecordTells(log: seq<Payload>, r: M.Prediction)
    requires Justified(log) && Own(log, OutcomeName) && r.resolved && Filed(log, r)
    ensures r.miss == Some(if Succeeded(log, r.outcomeId) then 0.0 else -r.predicted)
  {
    hide Justified, Own, Succeeded;
    var p :| p in log && Resolves(p, r);
    MissTells(log, p.m);
  }

  function SensorsBehind(s: M.MState, plan: Id): seq<string> {
    if plan in s.sensors.ofPlan then s.sensors.ofPlan[plan] else []
  }

  /** The resolutions on Memory's ledger of plans a sensor stands behind. */
  function Contributions(s: M.MState, sensor: string): seq<M.Prediction> {
    Filter(s.predictions, (r: M.Prediction) => r.resolved && sensor in SensorsBehind(s, r.planId))
  }

  ghost function RightOnes(log: seq<Payload>, rs: seq<M.Prediction>): nat {
    if rs == [] then 0 else (if Right(log, rs[0]) then 1 else 0) + RightOnes(log, rs[1..])
  }

  /**
   A sensor's new score counts the resolutions it contributed to, this one included, and its product with their number is the
   number of those that were right.
   */
  ghost predicate Earned(log: seq<Payload>, s: M.MState, m: MemoryEvent, sensor: string, reliability: real, considered: nat)
    requires m.PredictionResolved?
  {
    && considered == |Contributions(s, sensor)| + 1
    && reliability * considered as real == (RightOnes(log, Contributions(s, sensor)) + if RightNow(log, m) then 1 else 0) as real
  }

  ghost predicate AllFiled(log: seq<Payload>, rs: seq<M.Prediction>) {
    forall r <- rs :: r.resolved && Filed(log, r)
  }

  lemma {:induction false} AccurateAreRight(log: seq<Payload>, rs: seq<M.Prediction>)
    requires Justified(log) && Own(log, OutcomeName) && AllFiled(log, rs)
    ensures |Filter(rs, M.IsAccurate)| == RightOnes(log, rs)
  {
    hide Justified, Own, Succeeded, Filed;
    if rs != [] {
      RecordTells(log, rs[0]);
      assert forall r <- rs[1..] :: r in rs;
      AccurateAreRight(log, rs[1..]);
    }
  }

  lemma {:induction false} FilterSame(rs: seq<M.Prediction>, p: M.Prediction -> bool, q: M.Prediction -> bool)
    requires forall r: M.Prediction :: p(r) <==> q(r)
    ensures Filter(rs, p) == Filter(rs, q)
  {
    if rs != [] { FilterSame(rs[1..], p, q); }
  }

  lemma {:induction false} AttributableAmong(s: M.MState, rs: seq<M.Prediction>, sensor: string)
    ensures M.Attributable(s, Filter(rs, M.IsResolved), sensor) == Filter(rs, (r: M.Prediction) => r.resolved && sensor in SensorsBehind(s, r.planId))
  {
    if rs != [] {
      AttributableAmong(s, rs[1..], sensor);
      var behind := (p: M.Prediction) => sensor in M.SensorsOf(s, p.planId);
      FilterConcat(Prelude.Kept(M.IsResolved, rs[0]), Filter(rs[1..], M.IsResolved), behind);
      FilterOne(rs[0], behind);
    }
  }

  lemma AttributableIs(s: M.MState, sensor: string)
    ensures M.Attributable(s, M.Resolved(s.predictions), sensor) == Contributions(s, sensor)
  {
    AttributableAmong(s, s.predictions, sensor);
  }

  lemma ContributionsGrow(s: M.MState, s': M.MState, r: M.Prediction, sensor: string)
    requires r.resolved && sensor in SensorsBehind(s, r.planId) && s'.predictions == s.predictions + [r] && s'.sensors == s.sensors
    ensures Contributions(s', sensor) == Contributions(s, sensor) + [r]
  {
    FilterSnoc(s.predictions, r, (x: M.Prediction) => x.resolved && sensor in SensorsBehind(s, x.planId));
    FilterSame(s'.predictions, (x: M.Prediction) => x.resolved && sensor in SensorsBehind(s, x.planId),
               (x: M.Prediction) => x.resolved && sensor in SensorsBehind(s', x.planId));
  }

  lemma ContributionsFiled(log: seq<Payload>, s: M.MState, sensor: string)
    requires LedgerFiled(log, s)
    ensures AllFiled(log, Contributions(s, sensor))
  {
    hide Filed, SensorsBehind;
    FilterMembers(s.predictions, (r: M.Prediction) => r.resolved && sensor in SensorsBehind(s, r.planId));
  }

  /** A mean, multiplied out. */
  lemma Share(part: nat, whole: nat)
    requires whole > 0
    ensures part as real / whole as real * whole as real == part as real
  {
  }

  lemma OneMoreIsRight(log: seq<Payload>, before: seq<M.Prediction>, r: M.Prediction, m: MemoryEvent)
    requires m.PredictionResolved? && r.miss == Some(m.miss) && m.miss == if Succeeded(log, Some(m.outcomeId)) then 0.0 else -m.predicted
    ensures |Filter(before + [r], M.IsAccurate)| == |Filter(before, M.IsAccurate)| + if RightNow(log, m) then 1 else 0
  {
    hide Succeeded;
    FilterSnoc(before, r, M.IsAccurate);
  }

  lemma ScoreIs(own: seq<M.Prediction>, right: nat)
    requires own != [] && |Filter(own, M.IsAccurate)| == right
    ensures M.ComputeReliability(own) * |own| as real == right as real
  {
    hide Filter;
    Share(right, |own|);
  }

  lemma ScoreIsEarned(log: seq<Payload>, s: M.MState, s': M.MState, r: M.Prediction, m: MemoryEvent, sensor: string)
    requires Justified(log) && Own(log, OutcomeName) && LedgerFiled(log, s) && m.PredictionResolved? && OfMemory(m) in log
    requires r.resolved && r.planId == m.planId && r.miss == Some(m.miss) && sensor in SensorsBehind(s, m.planId)
    requires s'.predictions == s.predictions + [r] && s'.sensors == s.sensors
    ensures var own := M.Attributable(s', M.Resolved(s'.predictions), sensor);
            Earned(log, s, m, sensor, M.ComputeReliability(own), |own|)
  {
    hide Justified, Own, LedgerFiled, Succeeded, SensorsBehind, Contributions, M.Attributable, M.Resolved, M.ComputeReliability, Filter, RightNow;
    var before, own := Contributions(s, sensor), M.Attributable(s', M.Resolved(s'.predictions), sensor);
    AttributableIs(s', sensor);
    ContributionsGrow(s, s', r, sensor);
    ContributionsFiled(log, s, sensor);
    AccurateAreRight(log, before);
    MissTells(log, m);
    OneMoreIsRight(log, before, r, m);
    ScoreIs(own, RightOnes(log, before) + if RightNow(log, m) then 1 else 0);
  }

  /** A resolution starts learning from all there are, and rescores each sensor behind its plan, in order. */
  ghost predicate Rescores(ps: seq<Payload>, log: seq<Payload>, s: M.MState, m: MemoryEvent)
    requires m.PredictionResolved?
  {
    var sensors := SensorsBehind(s, m.planId);
    && |ps| == 1 + |sensors|
    && ps[0].OfMemory? && ps[0].m.LearningStarted? && ps[0].m.considered == Count(s.predictions, (r: M.Prediction) => r.resolved) + 1
    && forall i :: 0 <= i < |sensors| ==>
         && ps[1 + i].OfMemory? && ps[1 + i].m.SensorReliabilityUpdated? && ps[1 + i].m.sensorId == sensors[i]
         && Earned(log, s, m, sensors[i], ps[1 + i].m.reliability, ps[1 + i].m.considered)
  }

  lemma RescoringIsEarned(log: seq<Payload>, s: M.MState, m: MemoryEvent, time: real, tick: nat)
    requires Justified(log) && Own(log, OutcomeName) && LedgerFiled(log, s) && m.PredictionResolved? && OfMemory(m) in log
    requires M.FirstPrediction(s.predictions, m.predictionId).Some?
    ensures Rescores(M.OnPredictionResolved(s, m, time, tick).published, log, s, m)
  {
    hide Justified, Own, LedgerFiled, Earned, By, M.Attributable, M.ComputeReliability, M.FirstPrediction;
    var r := M.OnPredictionResolved(s, m, time, tick);
    var record := r.state.predictions[|s.predictions|];
    FilterSnoc(s.predictions, record, M.IsResolved);
    FilterSame(s.predictions, M.IsResolved, (r: M.Prediction) => r.resolved);
    var sensors := SensorsBehind(s, m.planId);
    hide M.Resolved, Filter;
    forall i | 0 <= i < |sensors| ensures var own := M.Attributable(r.state, M.Resolved(r.state.predictions), sensors[i]); Earned(log, s, m, sensors[i], M.ComputeReliability(own), |own|) {
      ScoreIsEarned(log, s, r.state, record, m, sensors[i]);
    }
  }

  ghost predicate RescoresHere(v: Setting, p: Point, e: Event, m: MemoryEvent) {
    m.PredictionResolved? ==> Rescores(M.Step(Text(v), p.o.memory, e, p.ticks).published, Log(p), p.o.memory, m)
  }

  /**
   In every run: dispatching a resolution rescores the sensors behind its plan, each to the share, among the resolutions on
   Memory's ledger of plans it stands behind, of those whose recorded outcome is a success (or that predicted nothing).
   */
  lemma ReliabilityIsShareOfSuccesses(v: Setting, moves: seq<Move>, e: Event, m: MemoryEvent)
    requires Legal(v, moves) && Facing(Here(v, moves), OfMemory(m)) && e.body == OfMemory(m)
    ensures RescoresHere(v, Here(v, moves), e, m)
  {
    hide Here, Legal, Rescores, M.OnPredictionResolved, LedgerFiled, Justified, Own, Earlier, AllResolvePredicted;
    var p := Here(v, moves);
    if m.PredictionResolved? {
      RunsReckon(v, moves);
      RunsStayJustified(v, moves);
      O.MemoryNeverRaises(v, moves, m);
      LogTurns(p);
      RescoringIsEarned(Log(p), p.o.memory, m, e.time, p.ticks);
    }
  }

  // ---------------------------------------------------------------- errors, confidence and knowledge

  /** What was predicted and did not come true. */
  ghost function Lost(log: seq<Payload>, rs: seq<M.Prediction>): real {
    if rs == [] then 0.0 else (if Succeeded(log, rs[0].outcomeId) then 0.0 else rs[0].predicted) + Lost(log, rs[1..])
  }

  lemma {:induction false} MissesAreLosses(log: seq<Payload>, rs: seq<M.Prediction>)
    requires Justified(log) && Own(log, OutcomeName) && AllFiled(log, rs)
    ensures |Project(rs, M.MissOf)| == |rs| && Sum(Project(rs, M.MissOf), M.Itself) == -Lost(log, rs)
  {
    hide Justified, Own, Succeeded, Filed;
    if rs != [] {
      RecordTells(log, rs[0]);
      assert forall r <- rs[1..] :: r in rs;
      MissesAreLosses(log, rs[1..]);
      assert Project(rs, M.MissOf)[1..] == Project(rs[1..], M.MissOf);
    }
  }

  /** No prediction on the log is negative. */
  ghost predicate Hopeful(rs: seq<M.Prediction>) {
    forall r <- rs :: r.predicted >= 0.0
  }

  lemma {:induction false} LossIsOfFailure(log: seq<Payload>, rs: seq<M.Prediction>)
    requires Hopeful(rs)
    ensures Lost(log, rs) >= 0.0
    ensures Lost(log, rs) > 0.0 <==> exists r <- rs :: !Succeeded(log, r.outcomeId) && r.predicted > 0.0
  {
    hide Succeeded;
    if rs != [] {
      assert rs == [rs[0]] + rs[1..];
      LossIsOfFailure(log, rs[1..]);
    }
  }

  lemma PredictionsAreHopeful(v: Setting, moves: seq<Move>)
    requires Legal(v, moves)
    ensures Hopeful(Filter(Here(v, moves).o.memory.predictions, M.IsResolved))
  {
    hide Here, Legal, Earlier, Own, Ranges.Sensing, Ranges.Valuing, Ranges.Scoring;
    var p, log := Here(v, moves), Log(Here(v, moves));
    RunsReckon(v, moves);
    RunsStayJustified(v, moves);
    Ranges.RunsKeepRanges(v, moves);
    FilterMembers(p.o.memory.predictions, M.IsResolved);
    forall r | r in Filter(p.o.memory.predictions, M.IsResolved) ensures r.predicted >= 0.0 {
      assert Filed(log, r);
      var q :| q in log && Resolves(q, r);
      assert ResolvesPredicted(log, q);
      var recorded :| recorded in log && Predicts(recorded, r.id, r.planId, r.predicted);
      PredictionIsInRange(log, recorded);
    }
  }

  lemma PredictionIsInRange(log: seq<Payload>, p: Payload)
    requires Justified(log) && Ranges.AllInRange(log) && p in log && p.OfMemory? && p.m.PredictionRecorded?
    ensures 0.0 <= p.m.predicted <= 100.0
  {
    var i: nat :| i < |log| && log[i] == p;
    assert CausedBefore(log, i, log[i]);
    var j: nat :| j < i && j < |log| && Causes(log[j], log[i]);
    assert Ranges.InRange(log[j]);
  }

  /** Learning ends with the mean of the errors, negative exactly if something predicted of a positive value failed. */
  ghost predicate Averages(ps: seq<Payload>, log: seq<Payload>, resolved: seq<M.Prediction>) {
    && |ps| == 1 && ps[0].OfMemory? && ps[0].m.LearningCompleted?
    && var error := ps[0].m.meanError;
       && (if resolved == [] then error == 0.0 else error * |resolved| as real == -Lost(log, resolved))
       && (error < 0.0 <==> exists r <- resolved :: !Succeeded(log, r.outcomeId) && r.predicted > 0.0)
       && error <= 0.0
  }

  lemma Quotient(total: real, n: real)
    requires n > 0.0
    ensures total / n * n == total && (total / n < 0.0 <==> total < 0.0) && (total / n == 0.0 <==> total == 0.0)
  {
    var q := total / n;
    assert q * n == total;
    if q < 0.0 { Scales(q, 0.0, n); }
    if q > 0.0 { Scales(0.0, q, n); }
  }

  lemma LearningAverages(l: M.Learning, predictions: seq<M.Prediction>, m: MemoryEvent, time: real, tick: nat, log: seq<Payload>)
    requires Justified(log) && Own(log, OutcomeName) && m.LearningStarted?
    requires AllFiled(log, Filter(predictions, M.IsResolved)) && Hopeful(Filter(predictions, M.IsResolved))
    ensures Averages(M.OnLearningStarted(l, predictions, m, time, tick).published, log, Filter(predictions, M.IsResolved))
  {
    hide Justified, Own, AllFiled, Hopeful, By, Filter, Project, Sum, Succeeded, Lost;
    var rs := Filter(predictions, M.IsResolved);
    MissesAreLosses(log, rs);
    LossIsOfFailure(log, rs);
    if rs != [] {
      Quotient(-Lost(log, rs), |rs| as real);
    } else {
      assert Lost(log, []) == 0.0 by { NothingLost(log); }
    }
  }

  lemma NothingLost(log: seq<Payload>)
    ensures Lost(log, []) == 0.0
  {
  }

  ghost predicate AveragesHere(v: Setting, p: Point, e: Event, m: MemoryEvent) {
    m.LearningStarted? ==>
      Averages(M.Step(Text(v), p.o.memory, e, p.ticks).published, Log(p), Filter(p.o.memory.predictions, (r: M.Prediction) => r.resolved))
  }

  /**
   In every run: learning ends with a mean error that is what was predicted of plans that failed, over the number of
   resolutions and negative; it is below zero exactly when some plan of positive value failed, and never above.
   */
  lemma ErrorIsMeanLoss(v: Setting, moves: seq<Move>, e: Event, m: MemoryEvent)
    requires Legal(v, moves) && Facing(Here(v, moves), OfMemory(m)) && e.body == OfMemory(m)
    ensures AveragesHere(v, Here(v, moves), e, m)
  {
    hide Here, Legal, Averages, M.OnLearningStarted, Justified, Own, Earlier, AllResolvePredicted, By, Filter, Filed;
    var p := Here(v, moves);
    if m.LearningStarted? {
      RunsReckon(v, moves);
      RunsStayJustified(v, moves);
      PredictionsAreHopeful(v, moves);
      FilterSame(p.o.memory.predictions, M.IsResolved, (r: M.Prediction) => r.resolved);
      FilterMembers(p.o.memory.predictions, M.IsResolved);
      LearningAverages(p.o.memory.learning, p.o.memory.predictions, m, e.time, p.ticks, Log(p));
    }
  }

  ghost predicate Classified(log: seq<Payload>, i: nat) {
    i < |log| && log[i].OfMemory? && log[i].m.RevisionCompleted? ==>
      exists j: nat :: j < i && log[j].OfMemory? && log[j].m.LearningCompleted?
                       && log[i].m.knowledgeType == if log[j].m.meanError < 0.0 then "anti_pattern" else "playbook"
  }

  /** And the knowledge distilled of it is an anti-pattern exactly when that error is below zero. */
  lemma KnowledgeIsClassified(v: Setting, moves: seq<Move>, i: nat)
    requires Legal(v, moves)
    ensures Classified(Log(Here(v, moves)), i)
  {
    hide Here, Legal, Justified;
    var log := Log(Here(v, moves));
    RunsStayJustified(v, moves);
    if i < |log| && log[i].OfMemory? && log[i].m.RevisionCompleted? {
      var j := RevisionIsCaused(log, i);
      var k := ErrorIsCaused(log, j);
    }
  }

  lemma RevisionIsCaused(log: seq<Payload>, i: nat) returns (j: nat)
    requires Justified(log) && i < |log| && log[i].OfMemory? && log[i].m.RevisionCompleted?
    ensures j < i && log[j].OfMemory? && log[j].m.RevisionStarted?
    ensures log[i].m.knowledgeType == if log[j].m.meanError < 0.0 then "anti_pattern" else "playbook"
  {
    assert CausedBefore(log, i, log[i]);
    j :| j < i && j < |log| && Causes(log[j], log[i]);
  }

  lemma ErrorIsCaused(log: seq<Payload>, i: nat) returns (j: nat)
    requires Justified(log) && i < |log| && log[i].OfMemory? && log[i].m.RevisionStarted?
    ensures j < i && log[j].OfMemory? && log[j].m.LearningCompleted? && log[j].m.meanError == log[i].m.meanError
  {
    assert CausedBefore(log, i, log[i]);
    j :| j < i && j < |log| && Causes(log[j], log[i]);
  }
}
