/** The event vocabulary: ids, typed payloads, publishers, ranks. */
module Events {
  import opened Prelude
  import opened Ordering

  datatype Component = KernelItself | Perception | WorldModel | Executive | Governor | Executor | Memory | Inference

  /** `Given` ids arrive from outside; `uuid4()` called while handling delivery number `tick` mints the rest. */
  datatype Id = Given(name: string) | Minted(tick: nat, minter: Component, path: seq<nat>)

  function ComponentCode(c: Component): int {
    match c
    case KernelItself => 0 case Perception => 1 case WorldModel => 2 case Executive => 3
    case Governor => 4 case Executor => 5 case Memory => 6 case Inference => 7
  }

  function IdKey(id: Id): seq<int> {
    match id
    case Given(name) => [0] + Codes(name)
    case Minted(tick, minter, path) => [1, tick, ComponentCode(minter)] + seq(|path|, i requires 0 <= i < |path| => path[i] as int)
  }

  /** A fixed total order on ids, standing for the string order of their texts. */
  predicate IdLe(a: Id, b: Id) {
    LexLe(IdKey(a), IdKey(b))
  }

  lemma IdKeyInjective(a: Id, b: Id)
    requires IdKey(a) == IdKey(b)
    ensures a == b
  {
    assert IdKey(a)[0] == IdKey(b)[0];
    if a.Given? {
      assert IdKey(a)[1..] == Codes(a.name) && IdKey(b)[1..] == Codes(b.name);
      forall i | 0 <= i < |a.name| ensures a.name[i] == b.name[i] {
        assert Codes(a.name)[i] == Codes(b.name)[i];
      }
      assert |Codes(a.name)| == |Codes(b.name)|;
    } else {
      assert IdKey(a)[1] == IdKey(b)[1] && IdKey(a)[2] == IdKey(b)[2];
      assert |a.path| == |b.path|;
      forall i | 0 <= i < |a.path| ensures a.path[i] == b.path[i] {
        assert IdKey(a)[i + 3] == IdKey(b)[i + 3];
      }
    }
  }

  lemma IdOrder()
    ensures TotalOrder(IdLe)
  {
    forall a, b ensures IdLe(a, b) || IdLe(b, a) { LexTotal(IdKey(a), IdKey(b)); }
    forall a, b | IdLe(a, b) && IdLe(b, a) ensures a == b {
      LexTotal(IdKey(a), IdKey(b));
      IdKeyInjective(a, b);
    }
    forall a, b, c | IdLe(a, b) && IdLe(b, c) ensures IdLe(a, c) {
      LexTransitive(IdKey(a), IdKey(b), IdKey(c));
    }
  }

  /** `Minting(n)` is the uuid minted by the publish that wrote log entry n; others come stamped on an event. */
  datatype Correlation = Minting(position: nat) | Supplied(name: string)

  /** `f"{correlation_id}:{claim_key}"`: a uuid holds no colon, so the pair can be read back. */
  datatype Signature = Signature(correlation: Correlation, claim: string)

  datatype KernelEvent = Starting | Started | Stopping | Stopped

  datatype PerceptionEvent = ObservationCreated(sensorId: string, valueText: string, confidence: real)

  datatype WorldModelEvent =
    | BeliefCreated(beliefId: string, claim: string, confidence: real, provenance: string)
    | BeliefUpdated(beliefId: string, previous: real, confidence: real, provenance: string)

  datatype ExecutiveEvent =
    | GenerationStarted(generationId: Id, signature: Signature, beliefId: string)
    | GenerationCompleted(generationId: Id, signature: Signature, beliefIds: seq<string>, accepted: bool,
                          confidence: real, reason: string, groupId: Option<Id>, opportunity: Option<Id>)
    | OpportunityIdentified(opportunityId: Id, beliefIds: seq<string>, confidence: real)
    | OpportunityScored(opportunityId: Id, value: real, confidence: real)
    | PlanProposed(planId: Id, opportunityId: Id, value: real, attention: real, capital: real, actions: seq<string>)
    | PlanSelected(planId: Id)
    | PlanAbandoned(planId: Id, reason: string)
    | ResearchSpendRequested(requestId: string, deliberationId: string, category: string, cost: real, depth: int)
    | ResearchIntent(requestId: string, query: string, cost: real, depth: int, priority: int)
    | DeliberationStep(step: string, reason: string)

  datatype GovernorEvent =
    | PolicyEvaluated(planId: Id, constitutionId: Id, passed: bool, reason: string)
    | BudgetChecked(planId: Id, budgetId: string, attentionRequired: real, attentionAvailable: real,
                    capitalRequired: real, capitalAvailable: real, sufficient: bool)
    | ApprovalGranted(approvalId: Id, planId: Id, reason: string, actions: seq<string>)
    | ApprovalDenied(approvalId: Id, planId: Id, reason: string)
    | ApprovalRequired(planId: Id, reason: string)
    | AmendmentProposed(amendmentId: Id, constitutionId: Id, previousId: Option<Id>, version: int,
                        rules: seq<string>, justification: string)
    | ConstitutionAmended(amendmentId: Id, constitutionId: Id, version: int, approvedBy: string)
    | AmendmentRejected(amendmentId: Id, constitutionId: Id, reason: string)
    | EscalationCreated(escalationId: Id, planId: Id, reason: string, actions: seq<string>)
    | EscalationResolved(escalationId: Id, planId: Id, decision: string, resolvedBy: string, reason: string)
    | KnowledgeApplied(applicationId: Id, knowledgeId: Id, knowledgeType: string, planId: Id, decision: string, reason: string)
    | KnowledgeIgnored(applicationId: Id, knowledgeId: Id, knowledgeType: string, planId: Id, reason: string)
    | ResearchSpendApproved(requestId: string, deliberationId: string, category: string, cost: real, reason: string)
    | ResearchSpendDenied(requestId: string, deliberationId: string, category: string, reason: string)

  datatype ExecutorEvent =
    | ActionApproved(actionId: Id, planId: Id, actionType: string)
    | ActionAttempted(actionId: Id, toolName: string, attempt: nat)
    | SandboxStarted(executionId: Id, actionId: Id, actionType: string)
    | SandboxCompleted(executionId: Id, actionId: Id, actionType: string, status: string,
                       output: Option<string>, failure: Option<string>)
    | RetryScheduled(actionId: Id, planId: Id, actionType: string, attempt: nat, nextAttempt: nat, reason: string)
    | RetryStarted(actionId: Id, planId: Id, actionType: string, attempt: nat)
    | RetryExhausted(actionId: Id, planId: Id, actionType: string, attemptsMade: nat, maxAttempts: int, reason: string)
    | CredentialRegistered(credentialId: Id, actionType: string, secret: string)
    | CredentialUpdated(credentialId: Id, actionType: string, secret: string)
    | CredentialRevoked(credentialId: Id, actionType: string)
    | ActionSucceeded(actionId: Id, planId: Id, text: string)
    | ActionFailed(actionId: Id, planId: Id, text: string)

  datatype MemoryEvent =
    | OutcomeRecorded(outcomeId: Id, actionId: Id, planId: Id, success: bool, text: string)
    | LedgerEntryPosted(entryId: Id, actionId: Id, deltaAttention: real, deltaCapital: real)
    | PredictionRecorded(predictionId: Id, planId: Id, predicted: real)
    | PredictionResolved(predictionId: Id, planId: Id, outcomeId: Id, predicted: real, actual: real, miss: real)
    | LearningStarted(iterationId: Id, considered: nat)
    | LearningCompleted(iterationId: Id, considered: nat, meanError: real, heuristicId: Id)
    | RevisionStarted(revisionId: Id, considered: nat, meanError: real)
    | RevisionCompleted(revisionId: Id, considered: nat, consensus: real, knowledgeId: Id,
                        knowledgeType: string, summary: string)
    | SensorReliabilityUpdated(sensorId: string, reliability: real, considered: nat)

  datatype InferenceEvent = InferenceRequested(requestId: string) | InferenceCompleted(requestId: string,
      confidence: real)

  /** Every event type, under the `source_component` whose code constructs it. */
  datatype Payload =
    | OfKernel(k: KernelEvent)
    | OfPerception(p: PerceptionEvent)
    | OfWorldModel(w: WorldModelEvent)
    | OfExecutive(x: ExecutiveEvent)
    | OfGovernor(g: GovernorEvent)
    | OfExecutor(t: ExecutorEvent)
    | OfMemory(m: MemoryEvent)
    | OfInference(i: InferenceEvent)

  /** A published event. `time` is the instant it was constructed. */
  datatype Event = Event(body: Payload, correlation: Correlation, time: real)

  /** What a handler leaves behind: its component's new state, and what it published, in order. */
  datatype Reaction<+S> = Reaction(state: S, published: seq<Payload>)

  function Author(p: Payload): Component {
    match p
    case OfKernel(_) => KernelItself case OfPerception(_) => Perception case OfWorldModel(_) => WorldModel
    case OfExecutive(_) => Executive case OfGovernor(_) => Governor case OfExecutor(_) => Executor
    case OfMemory(_) => Memory case OfInference(_) => Inference
  }

  /** `_LIFECYCLE_TYPES` are exactly the kernel's own. */
  predicate Lifecycle(p: Payload) {
    p.OfKernel?
  }

  /** `_TERMINAL_LIFECYCLE_TYPES` */
  predicate Terminal(p: Payload) {
    p.OfKernel? && (p.k.Started? || p.k.Stopped?)
  }

  /** Subscribers react to a payload only by publishing payloads of lower rank. */
  function Rank(p: Payload): nat {
    match p
    case OfKernel(k) => if k.Started? then 17 else 0
    case OfPerception(_) => 13
    case OfWorldModel(_) => 12
    case OfExecutive(x) => ExecutiveRank(x)
    case OfGovernor(g) => GovernorRank(g)
    case OfExecutor(t) => if t.ActionSucceeded? || t.ActionFailed? then 7 else 0
    case OfMemory(m) => MemoryRank(m)
    case OfInference(_) => 0
  }

  function ExecutiveRank(x: ExecutiveEvent): nat {
    if x.ResearchSpendRequested? then 16
    else if x.ResearchIntent? then 14
    else if x.GenerationStarted? then 11
    else if x.GenerationCompleted? then 10
    else if x.PlanProposed? then 9
    else 0
  }

  function GovernorRank(g: GovernorEvent): nat {
    if g.ResearchSpendApproved? then 15
    else if g.EscalationResolved? then 9
    else if g.ApprovalGranted? then 8
    else 0
  }

  function MemoryRank(m: MemoryEvent): nat {
    if m.OutcomeRecorded? then 6
    else if m.PredictionResolved? then 5
    else if m.LearningStarted? then 4
    else if m.LearningCompleted? then 3
    else if m.RevisionStarted? then 2
    else 0
  }

  /** A component's own publications, all of rank below the given one. */
  ghost predicate By(c: Component, ps: seq<Payload>, rank: nat) {
    forall p <- ps :: Author(p) == c && Rank(p) < rank
  }

  lemma ByBoth(c: Component, a: seq<Payload>, b: seq<Payload>, rank: nat)
    requires By(c, a, rank) && By(c, b, rank)
    ensures By(c, a + b, rank)
  {
  }

  lemma ByNone(c: Component, rank: nat)
    ensures By(c, [], rank)
  {
  }
}
