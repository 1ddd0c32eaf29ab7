/** Every entry not published from outside was brought about by one it agrees with. */
module Causality {
  import opened Prelude
  import opened Rounding
  import opened Events
  import opened Rules
  import opened KernelModel
  import opened Organism
  import opened Runs
  import A = Authority
  import GT = GovernorTheorems
  import P = PerceptionModel
  import W = WorldModelModel
  import X = ExecutiveModel
  import G = GovernorModel
  import T = ExecutorModel
  import M = MemoryModel
  import R = Ranking

  // ---------------------------------------------------------------- what brings about what

  /** A belief is formed of an observation, about its sensor. */
  predicate FormsBelief(cause: Payload, w: WorldModelEvent) {
    && w.BeliefCreated? && cause.OfPerception?
    && w.beliefId == "sensor:" + cause.p.sensorId && w.claim == cause.p.valueText && w.provenance == cause.p.sensorId
  }

  /** An accepted pass proposes an opportunity. */
  predicate Accepts(cause: Payload, opportunity: Id, confidence: real) {
    cause.OfExecutive? && cause.x.GenerationCompleted? && cause.x.accepted && cause.x.opportunity == Some(opportunity) && cause.x.confidence == confidence
  }

  /**
   A belief starts a pass; a pass started is completed; an accepted one identifies an opportunity, scores it at a hundred times
   its confidence, and proposes a plan for it, for one unit of attention and a tenth of its value; approved research is intended.
   */
  predicate CausesExecutive(cause: Payload, x: ExecutiveEvent) {
    match x
    case GenerationStarted(_, _, beliefId) => cause.OfWorldModel? && cause.w.beliefId == beliefId
    case GenerationCompleted(id, signature, beliefIds, accepted, _, _, groupId, opportunity) =>
      && cause.OfExecutive? && cause.x.GenerationStarted? && cause.x.generationId == id && cause.x.signature == signature
      && groupId.Some? == accepted && opportunity.Some? == accepted
    case OpportunityIdentified(id, beliefIds, confidence) => Accepts(cause, id, confidence) && cause.x.beliefIds == beliefIds
    case OpportunityScored(id, value, confidence) => Accepts(cause, id, confidence) && value == Round4(confidence * 100.0)
    case PlanProposed(_, id, value, attention, capital, actions) =>
      && cause.OfExecutive? && cause.x.GenerationCompleted? && Accepts(cause, id, cause.x.confidence)
      && value == Round4(cause.x.confidence * 100.0) && attention == 1.0 && capital == Round4(value * 0.1) && |actions| == 2
    case ResearchIntent(id, _, cost, _, _) =>
      cause.OfGovernor? && cause.g.ResearchSpendApproved? && cause.g.requestId == id && cause.g.cost == cost
    case _ => false
  }

  predicate Proposes(cause: Payload, plan: Id) {
    cause.OfExecutive? && cause.x.PlanProposed? && cause.x.planId == plan
  }

  /** Plans are decided, escalated and weighed as they were proposed, or as their owners decide; research as it was asked for. */
  predicate CausesGovernor(cause: Payload, g: GovernorEvent) {
    match g
    case PolicyEvaluated(plan, _, _, _) => Proposes(cause, plan)
    case BudgetChecked(plan, _, attention, _, capital, _, _) => Proposes(cause, plan) && cause.x.attention == attention && cause.x.capital == capital
    case KnowledgeApplied(_, _, _, plan, _, _) => Proposes(cause, plan)
    case KnowledgeIgnored(_, _, _, plan, _) => Proposes(cause, plan)
    case ApprovalRequired(plan, _) => Proposes(cause, plan)
    case EscalationCreated(_, plan, _, actions) => Proposes(cause, plan) && cause.x.actions == actions
    case ApprovalGranted(_, plan, _, actions) =>
      (Proposes(cause, plan) && cause.x.actions == actions) || (cause.OfGovernor? && cause.g.EscalationResolved? && cause.g.decision == "approved")
    case ApprovalDenied(_, plan, reason) =>
      Proposes(cause, plan) || (cause.OfGovernor? && cause.g.EscalationResolved? && cause.g.decision != "approved" && cause.g.reason == reason)
    case ResearchSpendApproved(id, deliberation, category, cost, _) => Requests(cause, id, deliberation, category) && cause.x.cost == cost
    case ResearchSpendDenied(id, deliberation, category, _) => Requests(cause, id, deliberation, category)
    case _ => false
  }

  predicate Requests(cause: Payload, id: string, deliberation: string, category: string) {
    cause.OfExecutive? && cause.x.ResearchSpendRequested? && cause.x.requestId == id && cause.x.deliberationId == deliberation && cause.x.category == category
  }

  predicate Approves(p: Payload, action: Id, plan: Id) {
    p.OfExecutor? && p.t.ActionApproved? && p.t.actionId == action && p.t.planId == plan
  }

  predicate ApprovesType(p: Payload, action: Id, kind: string) {
    p.OfExecutor? && p.t.ActionApproved? && p.t.actionId == action && p.t.actionType == kind
  }

  predicate Concludes(p: Payload, action: Id, plan: Id) {
    p.OfExecutor? && (p.t.ActionSucceeded? || p.t.ActionFailed?) && p.t.actionId == action && p.t.planId == plan
  }

  predicate Records(p: Payload, action: Id, plan: Id) {
    p.OfMemory? && p.m.OutcomeRecorded? && p.m.actionId == action && p.m.planId == plan
  }

  /** The number of an action among those its plan orders is minted into its id. */
  predicate Numbered(action: Id, k: nat) {
    action.Minted? && action.minter == Executor && action.path == [k]
  }

  /** The grant orders the approved action: it is of the type of the ordered action whose number its id holds. */
  ghost predicate Orders(grant: Payload, p: Payload) {
    && A.GT.Grants(grant) && p.OfExecutor? && p.t.ActionApproved? && p.t.planId == grant.g.planId
    && exists k: nat :: k < |grant.g.actions| && Numbered(p.t.actionId, k) && p.t.actionType == T.ActionType(grant.g.actions[k])
  }

  /** An approval comes from a grant, and whatever else happens to an action from its approval. */
  ghost predicate CausesExecutor(cause: Payload, t: ExecutorEvent) {
    match t
    case ActionApproved(_, _, _) => Orders(cause, OfExecutor(t))
    case ActionAttempted(action, kind, _) => ApprovesType(cause, action, kind)
    case SandboxStarted(_, action, kind) => ApprovesType(cause, action, kind)
    case SandboxCompleted(_, action, kind, _, _, _) => ApprovesType(cause, action, kind)
    case RetryScheduled(action, plan, kind, _, _, _) => ApprovesType(cause, action, kind) && Approves(cause, action, plan)
    case RetryStarted(action, plan, kind, _) => ApprovesType(cause, action, kind) && Approves(cause, action, plan)
    case RetryExhausted(action, plan, kind, _, _, _) => ApprovesType(cause, action, kind) && Approves(cause, action, plan)
    case ActionSucceeded(action, plan, _) => Approves(cause, action, plan)
    case ActionFailed(action, plan, _) => Approves(cause, action, plan)
    case _ => false
  }

  predicate Ends(p: Payload, action: Id) {
    p.OfExecutor? && (p.t.ActionSucceeded? || p.t.ActionFailed?) && p.t.actionId == action
  }

  /**
   Results become outcomes, and cost a unit of each budget if they are successes; proposals become predictions of their value,
   which an outcome proves right or, by the whole value, wrong; each resolution starts the learning that ends, through a mean
   error, in knowledge: an anti-pattern if the error is negative.
   */
  predicate CausesMemory(cause: Payload, m: MemoryEvent) {
    match m
    case OutcomeRecorded(_, action, plan, success, text) => Concludes(cause, action, plan) && cause.t.ActionSucceeded? == success && cause.t.text == text
    case LedgerEntryPosted(_, action, attention, capital) =>
      Ends(cause, action) && attention == capital == (if cause.t.ActionSucceeded? then -1.0 else 0.0)
    case PredictionRecorded(_, plan, predicted) => Proposes(cause, plan) && cause.x.value == predicted
    case PredictionResolved(_, plan, outcome, predicted, actual, miss) => Proves(cause, plan, outcome) && IsProved(m, cause.m.success)
    case LearningStarted(_, _) => cause.OfMemory? && cause.m.PredictionResolved?
    case SensorReliabilityUpdated(_, _, _) => cause.OfMemory? && cause.m.PredictionResolved?
    case LearningCompleted(id, considered, _, _) => cause.OfMemory? && cause.m.LearningStarted? && cause.m.iterationId == id && cause.m.considered == considered
    case RevisionStarted(_, _, error) => cause.OfMemory? && cause.m.LearningCompleted? && cause.m.meanError == error
    case RevisionCompleted(id, considered, _, _, kind, _) =>
      && cause.OfMemory? && cause.m.RevisionStarted? && cause.m.revisionId == id && cause.m.considered == considered
      && kind == if cause.m.meanError < 0.0 then "anti_pattern" else "playbook"
  }

  predicate Proves(cause: Payload, plan: Id, outcome: Id) {
    cause.OfMemory? && cause.m.OutcomeRecorded? && cause.m.planId == plan && cause.m.outcomeId == outcome
  }

  /** A success makes a prediction true, a failure makes the whole of it the error. */
  predicate IsProved(m: MemoryEvent, success: bool) {
    m.PredictionResolved? && if success then m.actual == m.predicted && m.miss == 0.0 else m.actual == 0.0 && m.miss == -m.predicted
  }

  ghost predicate Causes(cause: Payload, p: Payload) {
    match p
    case OfWorldModel(w) => FormsBelief(cause, w)
    case OfExecutive(x) => CausesExecutive(cause, x)
    case OfGovernor(g) => CausesGovernor(cause, g)
    case OfExecutor(t) => CausesExecutor(cause, t)
    case OfMemory(m) => CausesMemory(cause, m)
    case _ => false
  }

  /** All but what components publish when they are called from outside. */
  predicate Derived(p: Payload) {
    match p
    case OfWorldModel(w) => w.BeliefCreated?
    case OfExecutive(x) => !(x.PlanSelected? || x.PlanAbandoned? || x.DeliberationStep? || x.ResearchSpendRequested?)
    case OfGovernor(g) => !(g.AmendmentProposed? || g.ConstitutionAmended? || g.AmendmentRejected? || g.EscalationResolved?)
    case OfExecutor(t) => !(t.CredentialRegistered? || t.CredentialUpdated? || t.CredentialRevoked?)
    case OfMemory(_) => true
    case _ => false
  }

  ghost predicate CausedBefore(log: seq<Payload>, i: nat, p: Payload) {
    exists j: nat :: j < i && j < |log| && Causes(log[j], p)
  }

  ghost predicate Justified(log: seq<Payload>) {
    forall i: nat :: i < |log| && Derived(log[i]) ==> CausedBefore(log, i, log[i])
  }

  /** Each is brought about by the event given, or by one before it. */
  ghost predicate InTurn(ps: seq<Payload>, cause: Payload) {
    forall k: nat :: k < |ps| && Derived(ps[k]) ==> Causes(cause, ps[k]) || CausedBefore(ps, k, ps[k])
  }

  lemma CausedStill(log: seq<Payload>, more: seq<Payload>, i: nat, p: Payload)
    requires i <= |log|
    ensures CausedBefore(log, i, p) <==> CausedBefore(log + more, i, p)
  {
    hide Causes;
    assert forall j: nat :: j < i ==> (log + more)[j] == log[j];
  }

  lemma CausedBehind(before: seq<Payload>, ps: seq<Payload>, k: nat, p: Payload)
    requires CausedBefore(ps, k, p)
    ensures CausedBefore(before + ps, |before| + k, p)
  {
    hide Causes;
    var j: nat :| j < k && j < |ps| && Causes(ps[j], p);
    assert (before + ps)[|before| + j] == ps[j];
  }

  lemma TurnsJoin(a: seq<Payload>, b: seq<Payload>, cause: Payload)
    requires InTurn(a, cause) && InTurn(b, cause)
    ensures InTurn(a + b, cause)
  {
    hide Causes, Derived, CausedBefore;
    forall k: nat | k < |a + b| && Derived((a + b)[k]) ensures Causes(cause, (a + b)[k]) || CausedBefore(a + b, k, (a + b)[k]) {
      if k < |a| {
        CausedStill(a, b, k, a[k]);
      } else if CausedBefore(b, k - |a|, b[k - |a|]) {
        CausedBehind(a, b, k - |a|, b[k - |a|]);
      }
    }
  }

  /** What an event of the log brings about in turn joins the log. */
  lemma JustifiedGrows(log: seq<Payload>, ps: seq<Payload>, cause: Payload)
    requires Justified(log) && InTurn(ps, cause) && cause in log
    ensures Justified(log + ps)
  {
    hide Causes, Derived;
    var all := log + ps;
    forall i: nat | i < |all| && Derived(all[i]) ensures CausedBefore(all, i, all[i]) {
      if i < |log| {
        CausedStill(log, ps, i, log[i]);
      } else {
        var k := i - |log|;
        if CausedBefore(ps, k, ps[k]) { CausedBehind(log, ps, k, ps[k]); }
        if Causes(cause, ps[k]) {
          var j: nat :| j < |log| && log[j] == cause;
          assert all[j] == cause;
        }
      }
    }
  }

  lemma JustifiedSoFar(log: seq<Payload>, more: seq<Payload>)
    requires Justified(log + more)
    ensures Justified(log)
  {
    hide Causes, Derived, CausedBefore;
    forall i: nat | i < |log| && Derived(log[i]) ensures CausedBefore(log, i, log[i]) {
      assert (log + more)[i] == log[i];
      CausedStill(log, more, i, log[i]);
    }
  }

  lemma CausedInTurn(ps: seq<Payload>, cause: Payload)
    requires forall p <- ps :: Derived(p) ==> Causes(cause, p)
    ensures InTurn(ps, cause)
  {
  }

  // ---------------------------------------------------------------- component by component

  lemma BeliefsAreCaused(s: W.WState, e: Event)
    ensures forall p <- W.Step(s, e).published :: Derived(p) ==> Causes(e.body, p)
  {
  }

  lemma PerceptionCausesNothing(s: P.PState, e: Event)
    ensures forall p <- P.Step(s, e).published :: Derived(p) ==> Causes(e.body, p)
  {
    hide P.ResearchSensor;
    PerceptionPublishes(s, e);
  }

  ghost predicate ExecutiveInTurn(ps: seq<Payload>, cause: Payload) {
    forall p <- ps :: p.OfExecutive? && (Derived(p) ==> CausesExecutive(cause, p.x))
  }

  lemma {:induction false} RequestsDeriveNothing(n: Notation, s: X.XState, cs: seq<X.Candidate>)
    ensures forall p <- X.RequestAll(n, s, cs).published :: p.OfExecutive? && !Derived(p)
    decreases |cs|
  {
    hide By;
    if cs != [] { RequestsDeriveNothing(n, X.RequestResearch(n, s, cs[0]).state, cs[1..]); }
  }

  lemma PassIsCaused(n: Notation, c: X.Clusters, x: ExecutiveEvent, beliefIds: seq<string>, tick: nat)
    requires x.GenerationStarted?
    ensures ExecutiveInTurn(X.Generate(n, c, x, beliefIds, tick).published, OfExecutive(x))
  {
    hide X.Confidences, X.AggregateConfidence, By;
  }

  lemma PursuitIsCaused(n: Notation, s: X.XState, x: ExecutiveEvent, tick: nat)
    requires x.GenerationCompleted? && x.groupId.Some? && x.opportunity.Some? && x.accepted
    ensures ExecutiveInTurn(X.Pursue(n, s, x, tick).published, OfExecutive(x))
  {
    hide Round4, By;
  }

  lemma ExecutivesAreCaused(n: Notation, s: X.XState, e: Event, tick: nat)
    ensures ExecutiveInTurn(X.Step(n, s, e, tick).published, e.body)
  {
    hide X.RequestAll, X.Seeds, X.ClaimKey, X.Leave, X.Generate, X.Cluster, X.Pursue, X.FirstGeneration, X.Situation, By;
    match e.body
    case OfKernel(_) => RequestsDeriveNothing(n, s, R.ByWorth(X.Seeds(), X.PriorityOf));
    case OfExecutive(x) =>
      if x.GenerationStarted? { PassIsCaused(n, s.clusters, x, X.Cluster(s.clusters, x.signature), tick); }
      else if x.GenerationCompleted? && x.accepted && x.groupId.Some? && x.opportunity.Some? { CompletionIsCaused(n, s, x, e.time, tick); }
    case _ =>
  }

  lemma CompletionIsCaused(n: Notation, s: X.XState, x: ExecutiveEvent, time: real, tick: nat)
    requires x.GenerationCompleted? && x.accepted && x.groupId.Some? && x.opportunity.Some?
    ensures ExecutiveInTurn(X.OnGenerationCompleted(n, s, x, time, tick).published, OfExecutive(x))
  {
    hide X.Pursue, By;
    forall s: X.XState ensures ExecutiveInTurn(X.Pursue(n, s, x, tick).published, OfExecutive(x)) { PursuitIsCaused(n, s, x, tick); }
  }

  ghost predicate GovernorInTurn(ps: seq<Payload>, cause: Payload) {
    forall p <- ps :: p.OfGovernor? && (Derived(p) ==> CausesGovernor(cause, p.g))
  }

  lemma GovernorBoth(a: seq<Payload>, b: seq<Payload>, cause: Payload)
    requires GovernorInTurn(a, cause) && GovernorInTurn(b, cause)
    ensures GovernorInTurn(a + b, cause)
  {
  }

  lemma DecisionsAreCaused(v: G.Env, s: G.GState, x: ExecutiveEvent, budget: G.Budget, support: seq<string>, reason: string, tick: nat)
    requires x.PlanProposed?
    ensures GovernorInTurn(G.Deny(s, x.planId, reason, tick).published, OfExecutive(x))
    ensures GovernorInTurn(G.Grant(v, s, budget, x, support, tick).published, OfExecutive(x))
    ensures GovernorInTurn(G.RequireApproval(s, x, reason, tick).published, OfExecutive(x))
  {
    hide By;
  }

  lemma NoticesAreCaused(ws: seq<G.Weighing>, x: ExecutiveEvent, tick: nat)
    requires x.PlanProposed?
    ensures GovernorInTurn(G.Notices(ws, x.planId, tick), OfExecutive(x))
  {
    hide By;
  }

  lemma AdviceIsCaused(v: G.Env, s: G.GState, x: ExecutiveEvent, budget: G.Budget, tick: nat)
    requires x.PlanProposed?
    ensures GovernorInTurn(G.Advise(v, s, x, budget, tick).published, OfExecutive(x))
  {
    hide By, G.AntiPatternWeighings, G.PlaybookWeighings, G.Deny, G.Grant, G.Notices, G.Records, Project, GovernorInTurn;
    var ws := G.AntiPatternWeighings(v.text, s) + G.PlaybookWeighings(v.text, s);
    NoticesAreCaused(ws, x, tick);
    var weighed := s.(applications := s.applications + G.Records(ws, x.planId, tick));
    var vetoes, support := Project(G.AntiPatternWeighings(v.text, weighed), G.AppliedReason), Project(G.PlaybookWeighings(v.text, weighed), G.AppliedReason);
    DecisionsAreCaused(v, weighed, x, budget, support, if vetoes != [] then vetoes[0] else "", tick);
    var ruled := G.Rule(v, weighed, x, budget, tick);
    GovernorBoth(G.Notices(ws, x.planId, tick), ruled.published, OfExecutive(x));
  }

  lemma AnnouncementsAreCaused(c: G.Constitution, budget: G.Budget, x: ExecutiveEvent, passed: bool, reason: string)
    requires x.PlanProposed?
    ensures GovernorInTurn(G.Evaluated(c, x, passed, reason), OfExecutive(x)) && GovernorInTurn(G.Checked(budget, x), OfExecutive(x))
  {
    hide By;
  }

  lemma CheckIsCaused(v: G.Env, s: G.GState, x: ExecutiveEvent, tick: nat)
    requires x.PlanProposed? && s.activeBudget.Some?
    ensures GovernorInTurn(G.CheckBudget(v, s, x, tick).published, OfExecutive(x))
  {
    hide By, G.Advise, G.Deny, G.Checked;
    if s.activeBudget.value in s.budgets {
      var budget := s.budgets[s.activeBudget.value];
      var reason := v.text.say(Shortfall(G.AttentionOk(budget, x), G.CapitalOk(budget, x)));
      DecisionsAreCaused(v, s, x, budget, [], reason, tick);
      AdviceIsCaused(v, s, x, budget, tick);
      AnnouncementsAreCaused(G.Constitution(x.planId, 0, [], 0.0), budget, x, true, "");
      hide GovernorInTurn;
      GovernorBoth(G.Checked(budget, x), if G.AttentionOk(budget, x) && G.CapitalOk(budget, x) then G.Advise(v, s, x, budget, tick).published else G.Deny(s, x.planId, reason, tick).published, OfExecutive(x));
    }
  }

  lemma PlanIsCaused(v: G.Env, s: G.GState, x: ExecutiveEvent, tick: nat)
    requires x.PlanProposed?
    ensures GovernorInTurn(G.OnPlanProposed(v, s, x, tick).published, OfExecutive(x))
  {
    hide By, G.CheckBudget, G.Policy, G.PlanFacts, G.Deny, G.RequireApproval, G.Evaluated, GovernorInTurn;
    var budget := G.Budget("", 0.0, 0.0);
    if s.constitutions == [] || s.activeBudget.None? {
      DecisionsAreCaused(v, s, x, budget, [], v.text.say(if s.constitutions == [] then NoConstitution else NoBudget), tick);
    } else if G.Policy(v, s, G.PlanFacts(x)).Verdict? {
      var verdict := G.Policy(v, s, G.PlanFacts(x));
      AnnouncementsAreCaused(G.Current(s), budget, x, verdict.passed, verdict.reason);
      DecisionsAreCaused(v, s, x, budget, [], verdict.reason, tick);
      CheckIsCaused(v, s, x, tick);
      GovernorBoth(G.Evaluated(G.Current(s), x, verdict.passed, verdict.reason),
                   if verdict.passed then G.CheckBudget(v, s, x, tick).published else G.Deny(s, x.planId, verdict.reason, tick).published, OfExecutive(x));
    } else {
      assert GovernorInTurn([], OfExecutive(x)) by { NothingInTurn(OfExecutive(x)); }
    }
  }

  lemma NothingInTurn(cause: Payload)
    ensures GovernorInTurn([], cause)
  {
  }

  lemma ResearchIsCaused(v: G.Env, s: G.GState, x: ExecutiveEvent, tick: nat)
    requires x.ResearchSpendRequested?
    ensures GovernorInTurn(G.OnResearchSpendRequested(v, s, x, tick).published, OfExecutive(x))
  {
    hide G.Policy, G.ResearchFacts, FindRuleArgs, G.WindowSeconds, By, G.OnlyRecordsResearch;
  }

  lemma GovernanceIsCaused(v: G.Env, s: G.GState, g: GovernorEvent, time: real, tick: nat)
    ensures GovernorInTurn(G.OnGovernance(v, s, g, time, tick).published, OfGovernor(g))
  {
    hide By, G.OnAmendmentProposed, G.OnAmendmentApproved, G.OnAmendmentRejected, G.OnlyGoverns;
  }

  lemma GovernorsAreCaused(v: G.Env, s: G.GState, e: Event, tick: nat)
    ensures GovernorInTurn(G.Step(v, s, e, tick).published, e.body)
  {
    hide By, G.OnPlanProposed, G.OnResearchSpendRequested, G.OnGovernance, G.OnRevisionCompleted, GovernorInTurn;
    NothingInTurn(e.body);
    if e.body.OfExecutive? && e.body.x.PlanProposed? { PlanIsCaused(v, s, e.body.x, tick); }
    if e.body.OfExecutive? && e.body.x.ResearchSpendRequested? { ResearchIsCaused(v, s, e.body.x, tick); }
    if e.body.OfGovernor? { GovernanceIsCaused(v, s, e.body.g, e.time, tick); }
  }

  /** Everything published for an action after its approval is about it. */
  ghost predicate OfAction(ps: seq<Payload>, a: T.Action) {
    forall p <- ps :: p.OfExecutor? && CausesExecutor(OfExecutor(ActionApproved(a.id, a.planId, a.kind)), p.t)
  }

  lemma OfActionJoins(x: seq<Payload>, y: seq<Payload>, a: T.Action)
    requires OfAction(x, a) && OfAction(y, a)
    ensures OfAction(x + y, a)
  {
  }

  lemma ConclusionIsOfAction(a: T.Action, attempt: nat, outcome: T.ToolOutcome)
    ensures OfAction(T.Conclude(a, attempt, outcome), a) && OfAction(T.Sandboxed(a, attempt, outcome), a)
    ensures outcome.Fails? ==> OfAction(T.Retry(a, attempt, outcome.error), a)
  {
    hide By, T.ExecutionId, Orders;
  }

  lemma {:induction false} AttemptsAreOfAction(a: T.Action, run: nat -> T.ToolOutcome, attempt: nat)
    ensures OfAction(T.Attempts(a, run, attempt), a)
    decreases a.maxAttempts - attempt
  {
    hide T.Conclude, T.Sandboxed, T.Retry, By, OfAction;
    var outcome := run(attempt);
    ConclusionIsOfAction(a, attempt, outcome);
    if T.TryAgain(a, attempt, outcome) {
      AttemptsAreOfAction(a, run, attempt + 1);
      OfActionJoins(T.Sandboxed(a, attempt, outcome), T.Retry(a, attempt, outcome.error), a);
      OfActionJoins(T.Sandboxed(a, attempt, outcome) + T.Retry(a, attempt, outcome.error), T.Attempts(a, run, attempt + 1), a);
    } else {
      OfActionJoins(T.Sandboxed(a, attempt, outcome), T.Conclude(a, attempt, outcome), a);
    }
  }

  lemma AnnouncedInTurn(a: T.Action, ps: seq<Payload>, cause: Payload)
    requires OfAction(ps, a) && Orders(cause, OfExecutor(ActionApproved(a.id, a.planId, a.kind)))
    ensures InTurn(T.Announce(a) + ps, cause)
  {
    hide By, Orders;
    var all := T.Announce(a) + ps;
    forall k: nat | k < |all| && Derived(all[k]) ensures Causes(cause, all[k]) || CausedBefore(all, k, all[k]) {
      if k >= 2 { assert all[k] == ps[k - 2] && ps[k - 2] in ps; }
      if k >= 1 { assert Causes(all[0], all[k]); }
    }
  }

  lemma ActionInTurn(n: Notation, b: T.Behaviour, e: T.Equipment, planId: Id, orderedAction: string, i: nat, tick: nat, cause: Payload)
    requires A.GrantsPlan(cause, planId) && i < |cause.g.actions| && cause.g.actions[i] == orderedAction
    ensures InTurn(T.ExecuteAction(n, b, e, planId, orderedAction, i, tick).1, cause)
  {
    hide T.Attempts, T.Conclude, T.Announce, T.Obstacle, T.ActionType, T.MaxAttempts, T.LastAttempt, T.Logged, By, InTurn, OfAction;
    var a := T.ActionOf(e, planId, orderedAction, i, tick);
    assert Numbered(a.id, i);
    var obstacle := T.Obstacle(e, a.kind);
    if obstacle.Some? {
      var failure := T.Fails(n.say(obstacle.value), false);
      ConclusionIsOfAction(a, 1, failure);
      AnnouncedInTurn(a, T.Conclude(a, 1, failure), cause);
    } else {
      var run := (k: nat) => b(tick, i, k);
      AttemptsAreOfAction(a, run, 1);
      AnnouncedInTurn(a, T.Attempts(a, run, 1), cause);
    }
  }

  lemma {:induction false} ExecutionInTurn(n: Notation, b: T.Behaviour, e: T.Equipment, planId: Id, actions: seq<string>, i: nat,
        tick: nat, cause: Payload)
    requires A.GrantsPlan(cause, planId) && cause.g.actions == actions && i <= |actions|
    ensures InTurn(T.ExecuteFrom(n, b, e, planId, actions, i, tick).1, cause)
    decreases |actions| - i
  {
    hide T.ExecuteAction, By, InTurn;
    if i == |actions| {
      CausedInTurn([], cause);
    } else {
      ActionInTurn(n, b, e, planId, actions[i], i, tick, cause);
      ExecutionInTurn(n, b, e, planId, actions, i + 1, tick, cause);
      TurnsJoin(T.ExecuteAction(n, b, e, planId, actions[i], i, tick).1, T.ExecuteFrom(n, b, e, planId, actions, i + 1, tick).1, cause);
    }
  }

  lemma ExecutorInTurn(n: Notation, b: T.Behaviour, s: T.TState, e: Event, tick: nat)
    ensures InTurn(T.Step(n, b, s, e, tick).published, e.body)
  {
    hide T.ExecuteFrom, T.OnOwn, By, InTurn;
    if e.body.OfGovernor? && e.body.g.ApprovalGranted? {
      ExecutionInTurn(n, b, s.equipment, e.body.g.planId, e.body.g.actions, 0, tick, e.body);
    } else {
      CausedInTurn([], e.body);
    }
  }

  lemma RescoringIsCaused(s: M.MState, resolved: seq<M.Prediction>, sensors: seq<string>)
    ensures forall p <- M.RescoredAll(s, resolved, sensors) :: p.OfMemory? && p.m.SensorReliabilityUpdated?
  {
    hide By, M.ComputeReliability, M.Attributable;
  }

  ghost predicate MemoryInTurn(ps: seq<Payload>, cause: Payload) {
    forall p <- ps :: p.OfMemory? && CausesMemory(cause, p.m)
  }

  lemma LoopsAreCaused(n: Notation, s: M.MState, m: MemoryEvent, time: real, tick: nat)
    requires M.OfLoops(m)
    ensures MemoryInTurn(M.Learn(n, s.learning, s.predictions, m, time, tick).published, OfMemory(m))
  {
    hide By, M.MeanError, M.Consensus, M.Confidence, M.Resolved, M.FirstIteration, M.FirstRevision;
  }

  lemma PredictionsAreCaused(s: M.MState, m: MemoryEvent, time: real, tick: nat)
    ensures MemoryInTurn(M.OnPrediction(s, m, time, tick).published, OfMemory(m))
  {
    hide By, M.RescoredAll, M.SensorsOf, M.Resolved, M.FirstPrediction;
    forall s: M.MState, resolved, sensors ensures forall p <- M.RescoredAll(s, resolved, sensors) :: p.OfMemory? && p.m.SensorReliabilityUpdated? {
      RescoringIsCaused(s, resolved, sensors);
    }
  }

  lemma MemoriesAreCaused(n: Notation, s: M.MState, e: Event, tick: nat)
    ensures MemoryInTurn(M.Step(n, s, e, tick).published, e.body)
  {
    hide By, M.Learn, M.OnPrediction, M.OnOpportunityIdentified;
    if e.body.OfMemory? {
      if M.OfLoops(e.body.m) { LoopsAreCaused(n, s, e.body.m, e.time, tick); } else { PredictionsAreCaused(s, e.body.m, e.time, tick); }
    }
  }

  lemma OthersInTurn(v: Setting, o: OState, e: Event, tick: nat)
    ensures InTurn(P.Step(o.perception, e).published + W.Step(o.worldModel, e).published + X.Step(Text(v), o.executive, e, tick).published
                   + G.Step(v.governor, o.governor, e, tick).published, e.body)
    ensures InTurn(M.Step(Text(v), o.memory, e, tick).published, e.body)
  {
    hide P.Step, W.Step, X.Step, G.Step, M.Step, CausesExecutive, CausesGovernor, CausesMemory, FormsBelief, InTurn;
    PerceptionCausesNothing(o.perception, e);
    BeliefsAreCaused(o.worldModel, e);
    ExecutivesAreCaused(Text(v), o.executive, e, tick);
    GovernorsAreCaused(v.governor, o.governor, e, tick);
    MemoriesAreCaused(Text(v), o.memory, e, tick);
    var p, w, x, g := P.Step(o.perception, e).published, W.Step(o.worldModel, e).published, X.Step(Text(v), o.executive, e, tick).published, G.Step(v.governor, o.governor, e, tick).published;
    CausedInTurn(p, e.body);
    CausedInTurn(w, e.body);
    CausedInTurn(x, e.body);
    CausedInTurn(g, e.body);
    CausedInTurn(M.Step(Text(v), o.memory, e, tick).published, e.body);
    hide ExecutiveInTurn, GovernorInTurn, MemoryInTurn;
    TurnsJoin(p, w, e.body);
    TurnsJoin(p + w, x, e.body);
    TurnsJoin(p + w + x, g, e.body);
  }

  lemma PublishedInTurn(v: Setting, o: OState, e: Event, tick: nat)
    ensures InTurn(Publications(v, o, e, tick), e.body)
  {
    hide P.Step, W.Step, X.Step, G.Step, T.Step, M.Step, InTurn;
    var before := P.Step(o.perception, e).published + W.Step(o.worldModel, e).published + X.Step(Text(v), o.executive, e, tick).published
                  + G.Step(v.governor, o.governor, e, tick).published;
    var own, after := T.Step(Text(v), v.behaviour, o.executor, e, tick).published, M.Step(Text(v), o.memory, e, tick).published;
    OthersInTurn(v, o, e, tick);
    ExecutorInTurn(Text(v), v.behaviour, o.executor, e, tick);
    TurnsJoin(before, own, e.body);
    TurnsJoin(before + own, after, e.body);
  }

  // ---------------------------------------------------------------- over whole runs

  ghost predicate Kept(p: Point) {
    Justified(Log(p))
  }

  lemma DeliveryJustified(v: Setting, p: Point, e: Event, n: nat)
    requires Kept(p) && p.queue != [] && HeadIs(p, e)
    ensures Kept(Moved(v, p, e)) && Kept(Torn(v, p, e, n)) && Kept(Heard(v, p, e)) && Kept(Dropped(p))
  {
    hide Publications, Successor, Justified;
    var pubs := Publications(v, p.o, e, p.ticks);
    LogTurns(p);
    PublishedInTurn(v, p.o, e, p.ticks);
    JustifiedGrows(Log(p), pubs, e.body);
    var logged := Taken(pubs, n);
    assert Log(p) + pubs == Log(p) + logged + pubs[|logged|..];
    JustifiedSoFar(Log(p) + logged, pubs[|logged|..]);
    assert Log(Moved(v, p, e)) == Log(p) + pubs;
    assert Log(Torn(v, p, e, n)) == Log(p) + logged;
    assert Log(Heard(v, p, e)) == Log(p) && Log(Dropped(p)) == Log(p);
  }

  lemma EnteringJustified(p: Point, body: Payload)
    requires Kept(p) && Outside(p.o, body)
    ensures Kept(Entered(p, body))
  {
    hide Justified;
    JustifiedBy(Log(p), body);
    assert Log(Entered(p, body)) == Log(p) + [body];
  }

  /** An event that is not derived from another joins the log. */
  lemma JustifiedBy(log: seq<Payload>, body: Payload)
    requires Justified(log) && !Derived(body)
    ensures Justified(log + [body])
  {
    hide Causes, Derived;
    forall i: nat | i < |log + [body]| && Derived((log + [body])[i]) ensures CausedBefore(log + [body], i, (log + [body])[i]) {
      CausedStill(log, [body], i, log[i]);
    }
  }

  lemma StepStaysJustified(v: Setting, p: Point, move: Move, e: Event)
    requires Kept(p) && Possible(p, move) && HeadIs(p, e)
    ensures Kept(Stepped(v, p, move, e))
  {
    hide Justified, Moved, Heard, Torn, Dropped, Outside, Reconfigures;
    match move
    case Enter(body, _) => EnteringJustified(p, body);
    case Next => DeliveryJustified(v, p, e, 0);
    case Drop => DeliveryJustified(v, p, e, 0);
    case Reboot => assert Log(Rebooted(p)) == Log(p);
    case Tear(n) => DeliveryJustified(v, p, e, n);
    case Hear => DeliveryJustified(v, p, e, 0);
    case Configure(o) => assert Log(Configured(p, o)) == Log(p);
  }

  lemma NothingToJustify()
    ensures Kept(Birth()) && Justified([])
  {
  }

  lemma RunsStayJustified(v: Setting, moves: seq<Move>)
    requires Legal(v, moves)
    ensures Kept(Here(v, moves))
  {
    hide Reached, Legal, Loses, Kept, Possible, Affords, Stepped;
    var inv := (p: Point) => Kept(p);
    NothingToJustify();
    forall p, move, e: Event | inv(p) && Possible(p, move) && HeadIs(p, e)
      ensures inv(Stepped(v, p, move, e)) {
      StepStaysJustified(v, p, move, e);
    }
    LosesAnything(v, moves);
    RunsKeep(v, moves, AnyLoss, inv);
  }

  ghost predicate Caused(log: seq<Payload>, i: nat) {
    i < |log| && Derived(log[i]) ==> CausedBefore(log, i, log[i])
  }

  /**
   In every run, across shutdowns and restarts: every entry of the log but those published from outside has, before it, an
   entry that brought it about and that it agrees with, in identities, amounts, verdicts and proportions.
   */
  lemma EntriesHaveCauses(v: Setting, moves: seq<Move>, i: nat)
    requires Legal(v, moves)
    ensures Caused(Log(Here(v, moves)), i)
  {
    hide Here, Legal, Derived, CausedBefore;
    RunsStayJustified(v, moves);
  }
}
