/** The Memory & Ledger object: its stores updated in place, each of its handlers held to a function of MemoryModel. */
module MemoryObject {
  import opened Prelude
  import opened Events
  import opened Rules
  import opened MemoryModel

  class MemoryLedger {
    const text: Notation
    var outcomes: seq<Outcome>
    var episodes: seq<EpisodicEntry>
    var entries: seq<LedgerEntry>
    var spending: seq<RecordedSpend>
    var predictions: seq<Prediction>
    var pending: map<Id, Prediction>
    var iterations: seq<Iteration>
    var heuristics: seq<Heuristic>
    var revisions: seq<Revision>
    var longTerm: seq<LongTerm>
    var reliabilities: seq<Reliability>
    var sensorForBelief: map<string, string>
    var sensorsForOpportunity: map<Id, seq<string>>
    var sensorsForPlan: map<Id, seq<string>>

    ghost function Loops(): Learning
      reads this
    {
      Learning(iterations, heuristics, revisions, longTerm)
    }

    ghost function State(): MState
      reads this
    {
      MState(outcomes, episodes, entries, spending, predictions, pending, Loops(), reliabilities,
             Attribution(sensorForBelief, sensorsForOpportunity, sensorsForPlan))
    }

    constructor (text: Notation)
      ensures this.text == text && State() == Initial()
    {
      this.text := text;
      outcomes, episodes, entries, spending := [], [], [], [];
      predictions, pending := [], map[];
      iterations, heuristics, revisions, longTerm := [], [], [], [];
      reliabilities := [];
      sensorForBelief, sensorsForOpportunity, sensorsForPlan := map[], map[], map[];
    }

    /** `_record`: an outcome, a memory and a ledger movement for every executed action. */
    method Record(actionId: Id, planId: Id, success: bool, result: string, tick: nat) returns (published: seq<Payload>)
      modifies this`outcomes, this`episodes, this`entries
      ensures Reaction(State(), published) == MemoryModel.Record(text, old(State()), actionId, planId, success, result, tick)
    {
      hide By;
      var outcome := Outcome(Minted(tick, Component.Memory, [0]), actionId, planId, success, result);
      outcomes := outcomes + [outcome];
      published := [OfMemory(OutcomeRecorded(outcome.id, actionId, planId, success, result))];
      episodes := episodes + [EpisodicEntry(Minted(tick, Component.Memory, [1]), outcome.id, text.say(Episode(actionId, success, result)))];
      var entry := LedgerEntry(Minted(tick, Component.Memory, [2]), actionId, if success then -ATTENTION_COST_PER_ACTION else 0.0,
                               if success then -CAPITAL_COST_PER_ACTION else 0.0);
      entries := entries + [entry];
      published := published + [OfMemory(LedgerEntryPosted(entry.id, actionId, entry.deltaAttention, entry.deltaCapital))];
    }

    method OnPlanProposed(x: ExecutiveEvent, tick: nat) returns (published: seq<Payload>)
      requires x.PlanProposed?
      modifies this`sensorsForPlan
      ensures Reaction(State(), published) == MemoryModel.OnPlanProposed(old(State()), x, tick)
    {
      sensorsForPlan := sensorsForPlan[x.planId := Lookup(sensorsForOpportunity, x.opportunityId).GetOr([])];
      published := [OfMemory(PredictionRecorded(Minted(tick, Component.Memory, [0]), x.planId, x.value))];
    }

    method OnPredictionRecorded(m: MemoryEvent, time: real)
      requires m.PredictionRecorded?
      modifies this`predictions, this`pending
      ensures State() == MemoryModel.OnPredictionRecorded(old(State()), m, time).state
    {
      var record := Prediction(m.predictionId, m.planId, m.predicted, false, time, None, None, None, None);
      predictions := predictions + [record];
      pending := pending[m.planId := record];
    }

    method OnOutcomeRecorded(m: MemoryEvent) returns (published: seq<Payload>)
      requires m.OutcomeRecorded?
      modifies this`pending
      ensures Reaction(State(), published) == MemoryModel.OnOutcomeRecorded(old(State()), m)
    {
      if m.planId !in pending {
        return [];
      }
      var claimed := pending[m.planId];
      pending := pending - {m.planId};
      var actual := if m.success then claimed.predicted else 0.0;
      published := [OfMemory(PredictionResolved(claimed.id, m.planId, m.outcomeId, claimed.predicted, actual, actual - claimed.predicted))];
    }

    /** Every sensor behind the plan is scored again over the resolutions it contributed to. */
    method Rescore(resolved: seq<Prediction>, sensors: seq<string>) returns (published: seq<Payload>)
      ensures published == RescoredAll(State(), resolved, sensors)
    {
      hide Rescored, By;
      published := [];
      var i := 0;
      while i < |sensors|
        invariant 0 <= i <= |sensors| && |published| == i
        invariant forall j :: 0 <= j < i ==> published[j] == Rescored(State(), resolved, sensors[j])
      {
        var scored := RescoreOne(resolved, sensors[i]);
        published := published + [scored];
        i := i + 1;
      }
    }

    method RescoreOne(resolved: seq<Prediction>, sensor: string) returns (published: Payload)
      ensures published == Rescored(State(), resolved, sensor)
    {
      hide Filter;
      ghost var s := State();
      ghost var mine := (p: Prediction) => sensor in SensorsOf(s, p.planId);
      NothingFiltered(resolved, mine);
      var own: seq<Prediction> := [];
      var i := 0;
      while i < |resolved|
        invariant 0 <= i <= |resolved|
        invariant own == Filter(resolved[..i], mine)
      {
        FilterNext(resolved, i, mine);
        var behind := Lookup(sensorsForPlan, resolved[i].planId).GetOr([]);
        own := own + if sensor in behind then [resolved[i]] else [];
        i := i + 1;
      }
      published := OfMemory(SensorReliabilityUpdated(sensor, ComputeReliability(own), |own|));
    }

    method OnPredictionResolved(m: MemoryEvent, time: real, tick: nat) returns (published: seq<Payload>)
      requires m.PredictionResolved?
      modifies this`predictions
      ensures Reaction(State(), published) == MemoryModel.OnPredictionResolved(old(State()), m, time, tick)
    {
      hide RescoredAll, Resolved, By;
      var proposed := FirstPrediction(predictions, m.predictionId);
      if proposed.None? {
        return [];  // IndexError
      }
      predictions := predictions + [Prediction(m.predictionId, m.planId, m.predicted, true, proposed.value.created,
                                               Some(m.outcomeId), Some(m.actual), Some(m.miss), Some(time))];
      var resolved := Resolved(predictions);
      published := [OfMemory(LearningStarted(Minted(tick, Component.Memory, [0]), |resolved|))];
      var rescored := Rescore(resolved, Lookup(sensorsForPlan, m.planId).GetOr([]));
      published := published + rescored;
    }

    method OnReliabilityUpdated(m: MemoryEvent, time: real)
      requires m.SensorReliabilityUpdated?
      modifies this`reliabilities
      ensures State() == MemoryModel.OnReliabilityUpdated(old(State()), m, time).state
    {
      reliabilities := reliabilities + [Reliability(m.sensorId, m.reliability, m.considered, time)];
    }

    method OnLearningStarted(m: MemoryEvent, time: real, tick: nat) returns (published: seq<Payload>)
      requires m.LearningStarted?
      modifies this`iterations
      ensures Reaction(Loops(), published) == MemoryModel.OnLearningStarted(old(Loops()), predictions, m, time, tick)
    {
      hide Resolved, MeanError, By;
      iterations := iterations + [Iteration(m.iterationId, false, m.considered, time, None, None, None)];
      published := [OfMemory(LearningCompleted(m.iterationId, m.considered, MeanError(Resolved(predictions)), Minted(tick, Component.Memory, [0])))];
    }

    method OnLearningCompleted(m: MemoryEvent, time: real, tick: nat) returns (published: seq<Payload>)
      requires m.LearningCompleted?
      modifies this`iterations, this`heuristics
      ensures Reaction(Loops(), published) == MemoryModel.OnLearningCompleted(text, old(Loops()), m, time, tick)
    {
      hide Confidence, By;
      var first := FirstIteration(iterations, m.iterationId);
      if first.None? {
        return [];  // IndexError
      }
      iterations := iterations + [Iteration(m.iterationId, true, m.considered, first.value.started, Some(time), Some(m.meanError), Some(m.heuristicId))];
      heuristics := heuristics + [Heuristic(m.heuristicId, text.say(Calibration(m.meanError, m.considered)), Confidence(m.considered), time)];
      published := if ShouldConsolidate(|heuristics|)
                   then [OfMemory(RevisionStarted(Minted(tick, Component.Memory, [0]), |heuristics|, m.meanError))] else [];
    }

    method OnRevisionStarted(m: MemoryEvent, time: real, tick: nat) returns (published: seq<Payload>)
      requires m.RevisionStarted?
      modifies this`revisions
      ensures Reaction(Loops(), published) == MemoryModel.OnRevisionStarted(text, old(Loops()), m, time, tick)
    {
      hide Consensus, Classify, By;
      revisions := revisions + [Revision(m.revisionId, false, m.considered, time, None, None, None)];
      var consensus := Consensus(heuristics);
      published := [OfMemory(RevisionCompleted(m.revisionId, m.considered, consensus, Minted(tick, Component.Memory, [0]),
                                               Classify(m.meanError), text.say(Consolidation(consensus, m.considered))))];
    }

    method OnRevisionCompleted(m: MemoryEvent, time: real)
      requires m.RevisionCompleted?
      modifies this`revisions, this`longTerm
      ensures Loops() == MemoryModel.OnRevisionCompleted(old(Loops()), m, time).state
    {
      var first := FirstRevision(revisions, m.revisionId);
      if first.Some? {
        revisions := revisions + [Revision(m.revisionId, true, m.considered, first.value.started, Some(time), Some(m.consensus), Some(m.knowledgeId))];
        longTerm := longTerm + [LongTerm(m.knowledgeId, m.summary, m.knowledgeType, m.consensus, m.considered, time)];
      }
    }

    method OnBelief(beliefId: string, provenance: string)
      modifies this`sensorForBelief
      ensures State() == MemoryModel.OnBelief(old(State()), beliefId, provenance)
    {
      sensorForBelief := sensorForBelief[beliefId := provenance];
    }

    method OnOpportunityIdentified(x: ExecutiveEvent)
      requires x.OpportunityIdentified?
      modifies this`sensorsForOpportunity
      ensures State() == MemoryModel.OnOpportunityIdentified(old(State()), x)
    {
      hide Project;
      ghost var sensor := SensorBehind(sensorForBelief);
      NothingProjected(x.beliefIds, sensor);
      var behind: seq<string> := [];
      var i := 0;
      while i < |x.beliefIds|
        invariant 0 <= i <= |x.beliefIds|
        invariant behind == Project(x.beliefIds[..i], sensor)
        modifies {}
      {
        ProjectNext(x.beliefIds, i, sensor);
        var found := Lookup(sensorForBelief, x.beliefIds[i]);
        behind := behind + if found.Some? then [found.value] else [];
        i := i + 1;
      }
      sensorsForOpportunity := sensorsForOpportunity[x.opportunityId := behind];
    }

    method OnResearchSpendApproved(g: GovernorEvent, correlation: Correlation)
      requires g.ResearchSpendApproved?
      modifies this`spending
      ensures State() == MemoryModel.OnResearchSpendApproved(old(State()), g, correlation)
    {
      spending := spending + [RecordedSpend(g.requestId, correlation, g.category, g.cost)];
    }

    /** `_restore_predictions`: one loop refills the ledger, one keeps the latest record of each plan. */
    method RestorePredictions(records: seq<Prediction>)
      modifies this`predictions, this`pending
      ensures predictions == old(predictions) + records && pending == RebuiltPending(records)
    {
      var latest: map<Id, Prediction> := map[];
      ghost var before := predictions;
      var i := 0;
      while i < |records|
        invariant 0 <= i <= |records|
        invariant predictions == before + records[..i] && latest == Latest(records[..i], PlanOf)
      {
        assert records[..i + 1] == records[..i] + [records[i]];
        LatestSnoc(records[..i], records[i], PlanOf);
        predictions := predictions + [records[i]];
        latest := latest[records[i].planId := records[i]];
        i := i + 1;
      }
      assert records[..i] == records;
      pending := map id | id in latest && !latest[id].resolved :: latest[id];
    }
  }

  lemma NothingFiltered<T>(s: seq<T>, p: T -> bool)
    ensures Filter(s[..0], p) == []
    ensures s[..|s|] == s
  {
  }

  lemma NothingProjected<T, U>(s: seq<T>, f: T -> Option<U>)
    ensures Project(s[..0], f) == []
    ensures s[..|s|] == s
  {
  }

  lemma ProjectNext<T, U>(s: seq<T>, i: nat, f: T -> Option<U>)
    requires i < |s|
    ensures Project(s[..i + 1], f) == Project(s[..i], f) + Image(f, s[i])
  {
    assert s[..i + 1] == s[..i] + [s[i]];
    ProjectSnoc(s[..i], s[i], f);
  }

  lemma FilterNext<T>(s: seq<T>, i: nat, p: T -> bool)
    requires i < |s|
    ensures Filter(s[..i + 1], p) == Filter(s[..i], p) + Kept(p, s[i])
  {
    assert s[..i + 1] == s[..i] + [s[i]];
    FilterSnoc(s[..i], s[i], p);
  }
}
