/** In every run each plan lives its life: its first outcome, and no other, resolves its prediction. */
module FirstOutcome {
  import opened Prelude
  import opened Events
  import opened Rules
  import opened KernelModel
  import opened Organism
  import opened Runs
  import opened PlanLife
  import opened PlanLog
  import A = Authority
  import C = Custody
  import Causality
  import O = Openings
  import M = MemoryModel
  import G = GovernorModel
  import GT = GovernorTheorems
  import T = ExecutorModel
  import R = Ranking
  import X = ExecutiveModel
  import P = PerceptionModel
  import W = WorldModelModel

  // ---------------------------------------------------------------- what Memory holds on a plan

  datatype Holding = Holding(history: seq<Entry>, pending: Option<Id>)

  function EntryOf(plan: Id): M.Prediction -> Option<Entry> {
    (r: M.Prediction) => if r.planId == plan then Some(Entry(r.id, r.resolved, r.outcomeId)) else None
  }

  function PendingId(r: Option<M.Prediction>): Option<Id> {
    match r case None => None case Some(p) => Some(p.id)
  }

  function Held(s: M.MState, plan: Id): Holding {
    Holding(Project(s.predictions, EntryOf(plan)), PendingId(Lookup(s.pending, plan)))
  }

  function Items(ps: seq<Payload>, plan: Id): seq<Item> {
    Project(ps, ItemOf(plan))
  }

  /** What a delivery makes of Memory's holding on a plan, and the items it sends for it. */
  ghost predicate HeldMoves(h: Holding, heard: Option<Item>, h': Holding, sent: seq<Item>) {
    match heard
    case Some(Proposing) => h' == h && exists id :: sent == [Noting(id)]
    case Some(Noting(id)) => h' == h.(history := h.history + [Entry(id, false, None)], pending := Some(id)) && sent == []
    case Some(Acted(action)) => h' == h && exists outcome :: sent == [Reported(outcome, action)]
    case Some(Reported(outcome, _)) =>
      if h.pending.Some? then h' == h.(pending := None) && sent == [Fixing(h.pending.value, outcome)] else h' == h && sent == []
    case Some(Fixing(id, outcome)) => h' == h.(history := h.history + [Entry(id, true, Some(outcome))]) && sent == []
    case _ => h' == h && sent == []
  }

  lemma NoItems(ps: seq<Payload>, plan: Id)
    requires forall p <- ps :: ItemIn(p, plan) == None
    ensures Items(ps, plan) == []
  {
    ProjectNothing(ps, ItemOf(plan));
  }

  lemma OneItem(p: Payload, plan: Id)
    ensures Items([p], plan) == match ItemIn(p, plan) case None => [] case Some(i) => [i]
  {
    ProjectOne(p, ItemOf(plan));
  }

  lemma ProposalHeld(s: M.MState, x: ExecutiveEvent, tick: nat, plan: Id)
    requires x.PlanProposed?
    ensures var r := M.OnPlanProposed(s, x, tick);
            HeldMoves(Held(s, plan), ItemIn(OfExecutive(x), plan), Held(r.state, plan), Items(r.published, plan))
  {
    var r := M.OnPlanProposed(s, x, tick);
    OneItem(r.published[0], plan);
    assert Held(r.state, plan) == Held(s, plan);
  }

  lemma ActionHeld(n: Notation, s: M.MState, t: ExecutorEvent, tick: nat, plan: Id)
    requires t.ActionSucceeded? || t.ActionFailed?
    ensures var r := M.OnAction(n, s, t, tick);
            HeldMoves(Held(s, plan), ItemIn(OfExecutor(t), plan), Held(r.state, plan), Items(r.published, plan))
  {
    hide By, Project;
    var r := M.OnAction(n, s, t, tick);
    TwoItems(r.published[0], r.published[1], plan);
  }

  lemma TwoItems(a: Payload, b: Payload, plan: Id)
    ensures Items([a, b], plan) == Image(ItemOf(plan), a) + Image(ItemOf(plan), b)
  {
    ProjectSnoc([a], b, ItemOf(plan));
    ProjectOne(a, ItemOf(plan));
    assert [a, b] == [a] + [b];
  }

  lemma RecordingHeld(s: M.MState, m: MemoryEvent, time: real, plan: Id)
    requires m.PredictionRecorded?
    ensures var r := M.OnPredictionRecorded(s, m, time);
            HeldMoves(Held(s, plan), ItemIn(OfMemory(m), plan), Held(r.state, plan), Items(r.published, plan))
  {
    hide Project;
    var r := M.OnPredictionRecorded(s, m, time);
    ProjectSnoc(s.predictions, r.state.predictions[|s.predictions|], EntryOf(plan));
    NoItems([], plan);
  }

  lemma ClaimHeld(s: M.MState, m: MemoryEvent, plan: Id)
    requires m.OutcomeRecorded?
    ensures var r := M.OnOutcomeRecorded(s, m);
            HeldMoves(Held(s, plan), ItemIn(OfMemory(m), plan), Held(r.state, plan), Items(r.published, plan))
  {
    hide By, Project;
    var r := M.OnOutcomeRecorded(s, m);
    if m.planId in s.pending { OneItem(r.published[0], plan); } else { NoItems([], plan); }
  }

  lemma ResolutionHeld(s: M.MState, m: MemoryEvent, time: real, tick: nat, plan: Id)
    requires m.PredictionResolved? && M.FirstPrediction(s.predictions, m.predictionId).Some?
    ensures var r := M.OnPredictionResolved(s, m, time, tick);
            HeldMoves(Held(s, plan), ItemIn(OfMemory(m), plan), Held(r.state, plan), Items(r.published, plan))
  {
    hide By, M.RescoredAll, M.SensorsOf, M.Resolved, Project;
    var r := M.OnPredictionResolved(s, m, time, tick);
    ProjectSnoc(s.predictions, r.state.predictions[|s.predictions|], EntryOf(plan));
    RescoringSendsNothing(s, m, time, tick, plan);
  }

  lemma PredictionHeld(s: M.MState, m: MemoryEvent, time: real, tick: nat, plan: Id)
    requires m.PredictionResolved? ==> M.FirstPrediction(s.predictions, m.predictionId).Some?
    ensures var r := M.OnPrediction(s, m, time, tick);
            HeldMoves(Held(s, plan), ItemIn(OfMemory(m), plan), Held(r.state, plan), Items(r.published, plan))
  {
    hide By, M.OnPredictionRecorded, M.OnOutcomeRecorded, M.OnPredictionResolved, HeldMoves, Held, Project;
    if m.PredictionRecorded? {
      RecordingHeld(s, m, time, plan);
    } else if m.OutcomeRecorded? {
      ClaimHeld(s, m, plan);
    } else if m.PredictionResolved? {
      ResolutionHeld(s, m, time, tick, plan);
    } else {
      NothingHeld(s, M.OnPrediction(s, m, time, tick).state, OfMemory(m), plan);
    }
  }

  lemma RescoringSendsNothing(s: M.MState, m: MemoryEvent, time: real, tick: nat, plan: Id)
    requires m.PredictionResolved?
    ensures Items(M.OnPredictionResolved(s, m, time, tick).published, plan) == []
  {
    hide By, M.ComputeReliability, M.Attributable, M.Resolved;
    NoItems(M.OnPredictionResolved(s, m, time, tick).published, plan);
  }

  lemma LoopsHeld(n: Notation, l: M.Learning, predictions: seq<M.Prediction>, m: MemoryEvent, time: real, tick: nat,
        plan: Id)
    ensures Items(M.Learn(n, l, predictions, m, time, tick).published, plan) == []
  {
    hide By, M.MeanError, M.Consensus, M.Confidence, M.Resolved;
    NoItems(M.Learn(n, l, predictions, m, time, tick).published, plan);
  }

  lemma MemoryHears(n: Notation, s: M.MState, e: Event, tick: nat, plan: Id)
    requires e.body.OfMemory? && e.body.m.PredictionResolved? ==> M.FirstPrediction(s.predictions, e.body.m.predictionId).Some?
    ensures var r := M.Step(n, s, e, tick);
            HeldMoves(Held(s, plan), ItemIn(e.body, plan), Held(r.state, plan), Items(r.published, plan))
  {
    hide M.OnPlanProposed, M.Record, M.Learn, M.OnPredictionRecorded, M.OnOutcomeRecorded, M.OnPredictionResolved,
         M.OnReliabilityUpdated,
         M.OnOpportunityIdentified, HeldMoves, By, Project;
    var r := M.Step(n, s, e, tick);
    match e.body
    case OfExecutive(x) =>
      if x.PlanProposed? {
        ProposalHeld(s, x, tick, plan);
      } else {
        if x.OpportunityIdentified? { OpportunityApart(s, x); }
        NothingHeld(s, r.state, e.body, plan);
      }
    case OfExecutor(t) =>
      if t.ActionSucceeded? || t.ActionFailed? { ActionHeld(n, s, t, tick, plan); } else { NothingHeld(s, r.state, e.body, plan); }
    case OfMemory(m) =>
      if M.OfLoops(m) { LoopsHeld(n, s.learning, s.predictions, m, e.time, tick, plan); NothingHeld(s, r.state, e.body, plan); }
      else { PredictionHeld(s, m, e.time, tick, plan); }
    case _ => NothingHeld(s, r.state, e.body, plan);
  }

  lemma OpportunityApart(s: M.MState, x: ExecutiveEvent)
    requires x.OpportunityIdentified?
    ensures var s' := M.OnOpportunityIdentified(s, x); s'.predictions == s.predictions && s'.pending == s.pending
  {
  }

  lemma NothingHeld(s: M.MState, s': M.MState, body: Payload, plan: Id)
    requires s'.predictions == s.predictions && s'.pending == s.pending
    requires ItemIn(body, plan) == None || Calm(ItemIn(body, plan).value)
    ensures HeldMoves(Held(s, plan), ItemIn(body, plan), Held(s', plan), Items([], plan))
  {
  }

  // ---------------------------------------------------------------- what the other components send

  /** The Governor calmly answers a proposal, may grant what its owner answered, and is otherwise silent on the plan. */
  ghost predicate GovernorMoves(heard: Option<Item>, sent: seq<Item>) {
    match heard
    case Some(Proposing) => All(sent, Calm)
    case Some(Answering) => sent == [] || exists n :: sent == [Granting(n)]
    case _ => sent == []
  }

  lemma PreamblesSendNothing(ps: seq<Payload>, plan: Id)
    requires GT.Preambles(ps)
    ensures Items(ps, plan) == []
  {
    NoItems(ps, plan);
  }

  lemma ProposalAnswered(v: G.Env, s: G.GState, x: ExecutiveEvent, tick: nat, plan: Id)
    requires x.PlanProposed?
    ensures var r := G.OnPlanProposed(v, s, x, tick);
            All(Items(r.published, plan), Calm) && (x.planId != plan ==> Items(r.published, plan) == [])
  {
    hide G.OnPlanProposed, GT.EndingOf, GT.Passes, GT.Covered, GT.Vetoed, By, Project;
    var preamble := GT.PlanDecision(v, s, x, tick);
    var ps := G.OnPlanProposed(v, s, x, tick).published;
    assert ps == preamble + ps[|preamble|..];
    ProjectConcat(preamble, ps[|preamble|..], ItemOf(plan));
    PreamblesSendNothing(preamble, plan);
    EndingItems(ps[|preamble|..], GT.EndingOf(v, s, x), x.planId, x.actions, plan);
  }

  lemma EndingItems(tail: seq<Payload>, ending: GT.Ending, planId: Id, actions: seq<string>, plan: Id)
    requires GT.Ends(tail, ending, planId, actions)
    ensures All(Items(tail, plan), Calm) && (planId != plan ==> Items(tail, plan) == [])
  {
    hide Project;
    match ending
    case Raised => NoItems(tail, plan);
    case Escalated => assert tail == [tail[0], tail[1]]; TwoItems(tail[0], tail[1], plan);
    case _ => assert tail == [tail[0]]; OneItem(tail[0], plan);
  }

  /** An answer names the plan of the escalation it settles. */
  ghost predicate Addressed(s: G.GState, p: Payload) {
    A.Settles(p) && p.g.escalationId in s.pendingEscalations ==> s.pendingEscalations[p.g.escalationId].planId == p.g.planId
  }

  lemma GovernanceAnswered(v: G.Env, s: G.GState, g: GovernorEvent, time: real, tick: nat, plan: Id)
    requires Addressed(s, OfGovernor(g))
    ensures GovernorMoves(ItemIn(OfGovernor(g), plan), Items(G.OnGovernance(v, s, g, time, tick).published, plan))
  {
    hide By, Project, G.OnAmendmentProposed, G.OnAmendmentApproved, G.OnAmendmentRejected;
    var r := G.OnGovernance(v, s, g, time, tick);
    if g.EscalationResolved? && g.escalationId in s.pendingEscalations { OneItem(r.published[0], plan); } else { NoItems([], plan); }
  }

  lemma GovernorHears(v: G.Env, s: G.GState, e: Event, tick: nat, plan: Id)
    requires Addressed(s, e.body)
    ensures GovernorMoves(ItemIn(e.body, plan), Items(G.Step(v, s, e, tick).published, plan))
  {
    hide G.OnPlanProposed, G.OnResearchSpendRequested, G.OnGovernance, G.OnRevisionCompleted, By, Project;
    if e.body.OfGovernor? {
      GovernanceAnswered(v, s, e.body.g, e.time, tick, plan);
    } else if e.body.OfExecutive? && e.body.x.PlanProposed? {
      ProposalAnswered(v, s, e.body.x, tick, plan);
    } else {
      if e.body.OfExecutive? && e.body.x.ResearchSpendRequested? { ResearchSendsNothing(v, s, e.body.x, tick, plan); } else { NoItems([], plan); }
    }
  }

  lemma ResearchSendsNothing(v: G.Env, s: G.GState, x: ExecutiveEvent, tick: nat, plan: Id)
    requires x.ResearchSpendRequested?
    ensures Items(G.OnResearchSpendRequested(v, s, x, tick).published, plan) == []
  {
    hide G.Policy, G.ResearchFacts, FindRuleArgs, G.WindowSeconds, By, G.OnlyRecordsResearch;
    NoItems(G.OnResearchSpendRequested(v, s, x, tick).published, plan);
  }

  lemma {:induction false} AttemptItems(a: T.Action, run: nat -> T.ToolOutcome, attempt: nat, plan: Id)
    ensures Items(T.Attempts(a, run, attempt), plan) == if a.planId == plan then [Acted(a.id)] else []
    decreases a.maxAttempts - attempt
  {
    hide By, Project, T.Retry, T.Sandboxed, T.Conclude, T.ExecutionId;
    var outcome := run(attempt);
    SandboxItems(a, attempt, outcome, plan);
    if T.TryAgain(a, attempt, outcome) {
      AttemptItems(a, run, attempt + 1, plan);
      RetryItems(a, attempt, outcome.error, plan);
      ProjectConcat(T.Sandboxed(a, attempt, outcome) + T.Retry(a, attempt, outcome.error), T.Attempts(a, run,
          attempt + 1), ItemOf(plan));
      ProjectConcat(T.Sandboxed(a, attempt, outcome), T.Retry(a, attempt, outcome.error), ItemOf(plan));
    } else {
      ConclusionItems(a, attempt, outcome, plan);
      ProjectConcat(T.Sandboxed(a, attempt, outcome), T.Conclude(a, attempt, outcome), ItemOf(plan));
    }
  }

  lemma SandboxItems(a: T.Action, attempt: nat, outcome: T.ToolOutcome, plan: Id)
    ensures Items(T.Sandboxed(a, attempt, outcome), plan) == []
  {
    hide By, T.ExecutionId;
    NoItems(T.Sandboxed(a, attempt, outcome), plan);
  }

  lemma RetryItems(a: T.Action, attempt: nat, error: string, plan: Id)
    ensures Items(T.Retry(a, attempt, error), plan) == []
  {
    hide By;
    NoItems(T.Retry(a, attempt, error), plan);
  }

  lemma ConclusionItems(a: T.Action, attempt: nat, outcome: T.ToolOutcome, plan: Id)
    ensures Items(T.Conclude(a, attempt, outcome), plan) == if a.planId == plan then [Acted(a.id)] else []
  {
    hide By, Project;
    var ps := T.Conclude(a, attempt, outcome);
    if |ps| == 1 { assert ps == [ps[0]]; OneItem(ps[0], plan); } else { assert ps == [ps[0], ps[1]]; TwoItems(ps[0], ps[1], plan); }
  }

  /** Whatever happens to an ordered action, exactly one result is published for it. */
  lemma ActionItems(n: Notation, b: T.Behaviour, e: T.Equipment, planId: Id, orderedAction: string, i: nat, tick: nat,
        plan: Id)
    ensures Items(T.ExecuteAction(n, b, e, planId, orderedAction, i, tick).1, plan)
         == if planId == plan then [Acted(Minted(tick, Executor, [i]))] else []
  {
    hide By, Project, T.Announce, T.Attempts, T.Conclude, T.Obstacle, T.ActionType, T.MaxAttempts, T.LastAttempt,
         T.Logged;
    var a := T.ActionOf(e, planId, orderedAction, i, tick);
    AnnouncementItems(a, plan);
    var obstacle := T.Obstacle(e, a.kind);
    if obstacle.Some? {
      var failure := T.Fails(n.say(obstacle.value), false);
      ConclusionItems(a, 1, failure, plan);
      ProjectConcat(T.Announce(a), T.Conclude(a, 1, failure), ItemOf(plan));
    } else {
      var run := (k: nat) => b(tick, i, k);
      AttemptItems(a, run, 1, plan);
      ProjectConcat(T.Announce(a), T.Attempts(a, run, 1), ItemOf(plan));
    }
  }

  lemma AnnouncementItems(a: T.Action, plan: Id)
    ensures Items(T.Announce(a), plan) == []
  {
    hide By;
    NoItems(T.Announce(a), plan);
  }

  lemma {:induction false} ExecutionItems(n: Notation, b: T.Behaviour, e: T.Equipment, planId: Id,
        actions: seq<string>, i: nat, tick: nat, plan: Id)
    requires i <= |actions|
    ensures Items(T.ExecuteFrom(n, b, e, planId, actions, i, tick).1, plan)
         == if planId == plan then Acts(|actions|, tick)[i..] else []
    decreases |actions| - i
  {
    hide By, Project, T.ExecuteAction;
    if i == |actions| {
      NoItems([], plan);
    } else {
      ActionItems(n, b, e, planId, actions[i], i, tick, plan);
      ExecutionItems(n, b, e, planId, actions, i + 1, tick, plan);
      var one, rest := T.ExecuteAction(n, b, e, planId, actions[i], i, tick).1, T.ExecuteFrom(n, b, e, planId, actions, i + 1, tick).1;
      ProjectConcat(one, rest, ItemOf(plan));
    }
  }

  lemma ExecutorHears(n: Notation, b: T.Behaviour, s: T.TState, e: Event, tick: nat, plan: Id)
    ensures Items(T.Step(n, b, s, e, tick).published, plan)
         == match ItemIn(e.body, plan) case Some(Granting(k)) => Acts(k, tick) case _ => []
  {
    hide By, Project, T.ExecuteFrom, T.OnOwn;
    if e.body.OfGovernor? && e.body.g.ApprovalGranted? {
      ExecutionItems(n, b, s.equipment, e.body.g.planId, e.body.g.actions, 0, tick, plan);
    } else {
      NoItems([], plan);
    }
  }

  /** The Executive only ever proposes plans it has just minted. */
  lemma ExecutiveHears(n: Notation, s: X.XState, e: Event, tick: nat, plan: Id)
    ensures var sent := Items(X.Step(n, s, e, tick).published, plan);
            sent == [] || (sent == [Proposing] && plan == Minted(tick, Executive, [2]) && ItemIn(e.body, plan) == None)
  {
    hide By, Project, X.OnKernelStarted, X.OnBelief, X.OnGenerationStarted, X.OnGenerationCompleted,
         X.OnResearchApproved, X.OnOutcomeRecorded;
    match e.body
    case OfKernel(k) => if k.Started? { SeedingSendsNothing(n, s, plan); } else { NoItems([], plan); }
    case OfWorldModel(w) => BeliefSendsNothing(s, w, e.correlation, tick, plan);
    case OfExecutive(x) =>
      if x.GenerationStarted? { GenerationSendsNothing(n, s, x, e.time, tick, plan); }
      else if x.GenerationCompleted? { CompletionSends(n, s, x, e.time, tick, plan); } else { NoItems([], plan); }
    case OfGovernor(g) => if g.ResearchSpendApproved? { IntentSendsNothing(s, g, plan); } else { NoItems([], plan); }
    case _ => NoItems([], plan);
  }

  lemma SeedingSendsNothing(n: Notation, s: X.XState, plan: Id)
    ensures Items(X.OnKernelStarted(n, s).published, plan) == []
  {
    hide X.Seeds, X.RequestAll;
    RequestsSendNothing(n, s, R.ByWorth(X.Seeds(), X.PriorityOf), plan);
    if X.OnKernelStarted(n, s).published == [] { NoItems([], plan); }
  }

  lemma {:induction false} RequestsSendNothing(n: Notation, s: X.XState, cs: seq<X.Candidate>, plan: Id)
    ensures Items(X.RequestAll(n, s, cs).published, plan) == []
    decreases |cs|
  {
    hide By, Project;
    if cs == [] {
      NoItems([], plan);
    } else {
      var r := X.RequestResearch(n, s, cs[0]);
      NoItems(r.published, plan);
      RequestsSendNothing(n, r.state, cs[1..], plan);
      ProjectConcat(r.published, X.RequestAll(n, r.state, cs[1..]).published, ItemOf(plan));
    }
  }

  lemma BeliefSendsNothing(s: X.XState, w: WorldModelEvent, correlation: Correlation, tick: nat, plan: Id)
    ensures Items(X.OnWorldModel(s, w, correlation, tick).published, plan) == []
  {
    hide By, X.Leave, X.ClaimKey;
    NoItems(X.OnWorldModel(s, w, correlation, tick).published, plan);
  }

  lemma GenerationSendsNothing(n: Notation, s: X.XState, x: ExecutiveEvent, time: real, tick: nat, plan: Id)
    requires x.GenerationStarted?
    ensures Items(X.OnGenerationStarted(n, s, x, time, tick).published, plan) == []
  {
    hide By, X.Cluster, X.Confidences, X.AggregateConfidence, X.Started;
    NoItems(X.OnGenerationStarted(n, s, x, time, tick).published, plan);
  }

  lemma CompletionSends(n: Notation, s: X.XState, x: ExecutiveEvent, time: real, tick: nat, plan: Id)
    requires x.GenerationCompleted?
    ensures var sent := Items(X.OnGenerationCompleted(n, s, x, time, tick).published, plan);
            sent == [] || (sent == [Proposing] && plan == Minted(tick, Executive, [2]))
  {
    hide By, Project, X.Valued, X.FirstGeneration;
    var ps := X.OnGenerationCompleted(n, s, x, time, tick).published;
    if ps == [] {
      NoItems([], plan);
    } else {
      assert ps == [ps[0], ps[1]] + [ps[2]];
      ProjectSnoc([ps[0], ps[1]], ps[2], ItemOf(plan));
      NoItems([ps[0], ps[1]], plan);
      OneItem(ps[2], plan);
    }
  }

  lemma IntentSendsNothing(s: X.XState, g: GovernorEvent, plan: Id)
    requires g.ResearchSpendApproved?
    ensures Items(X.OnResearchApproved(s, g).published, plan) == []
  {
    hide By;
    NoItems(X.OnResearchApproved(s, g).published, plan);
  }

  // ---------------------------------------------------------------- a delivery, as the plan sees it

  lemma PublicationItems(v: Setting, o: OState, e: Event, tick: nat, plan: Id)
    ensures Items(Publications(v, o, e, tick), plan)
         == Items(X.Step(Text(v), o.executive, e, tick).published, plan) + Items(G.Step(v.governor, o.governor, e, tick).published, plan)
            + Items(T.Step(Text(v), v.behaviour, o.executor, e, tick).published, plan) + Items(M.Step(Text(v), o.memory, e, tick).published, plan)
  {
    hide P.Step, W.Step, X.Step, G.Step, T.Step, M.Step, Project;
    EachPublishesItsOwn(v, o, e, tick);
    var f := ItemOf(plan);
    var ps, ws := P.Step(o.perception, e).published, W.Step(o.worldModel, e).published;
    var xs, gs := X.Step(Text(v), o.executive, e, tick).published, G.Step(v.governor, o.governor, e, tick).published;
    var ts, ms := T.Step(Text(v), v.behaviour, o.executor, e, tick).published, M.Step(Text(v), o.memory, e, tick).published;
    SensingSendsNothing(ps, ws, plan);
    hide Items, By;
    JoinItems(ps, ws, xs, gs, ts, ms, plan);
  }

  lemma SensingSendsNothing(ps: seq<Payload>, ws: seq<Payload>, plan: Id)
    requires (forall p <- ps :: p.OfPerception?) && (forall p <- ws :: p.OfWorldModel?)
    ensures Items(ps, plan) == [] && Items(ws, plan) == []
  {
    NoItems(ps, plan);
    NoItems(ws, plan);
  }

  lemma JoinItems(ps: seq<Payload>, ws: seq<Payload>, xs: seq<Payload>, gs: seq<Payload>, ts: seq<Payload>,
        ms: seq<Payload>, plan: Id)
    requires Items(ps, plan) == [] && Items(ws, plan) == []
    ensures Items(ps + ws + xs + gs + ts + ms, plan) == Items(xs, plan) + Items(gs, plan) + Items(ts, plan) + Items(ms, plan)
  {
    hide Project;
    var f := ItemOf(plan);
    ProjectConcat(ps + ws + xs + gs + ts, ms, f);
    ProjectConcat(ps + ws + xs + gs, ts, f);
    ProjectConcat(ps + ws + xs, gs, f);
    ProjectConcat(ps + ws, xs, f);
    ProjectConcat(ps, ws, f);
  }

  function Heard(i: Option<Item>): seq<Item> {
    match i case None => [] case Some(h) => [h]
  }

  lemma QueueItems(q: seq<Payload>, added: seq<Payload>, plan: Id)
    requires q != []
    ensures Items(q, plan) == Heard(ItemIn(q[0], plan)) + Items(q[1..], plan)
    ensures Items(q[1..] + added, plan) == Items(q[1..], plan) + Items(added, plan)
  {
    hide ItemIn;
    ProjectTurns(q, added, ItemOf(plan));
  }

  lemma PastItems(past: seq<Payload>, body: Payload, plan: Id)
    ensures Items(past + [body], plan) == Items(past, plan) + Heard(ItemIn(body, plan))
  {
    ProjectSnoc(past, body, ItemOf(plan));
  }

  /** A plan not minted yet has left no trace. */
  ghost predicate Unminted(done: seq<Item>, due: seq<Item>, plan: Id, ticks: nat) {
    !(plan.Minted? && plan.tick < ticks) ==> done == [] && due == []
  }

  /** The components' moves, put together, are a move of the plan's automaton. */
  lemma MovesCombine(done: seq<Item>, heard: Option<Item>, rest: seq<Item>, xs: seq<Item>, gs: seq<Item>, ts: seq<Item>,
        ms: seq<Item>, h': Holding, plan: Id, tick: nat, whole: bool)
    requires InLife(done, Heard(heard) + rest, whole) && Unminted(done, Heard(heard) + rest, plan, tick)
    requires xs == [] || (xs == [Proposing] && plan == Minted(tick, Executive, [2]) && heard == None)
    requires GovernorMoves(heard, gs)
    requires ts == match heard case Some(Granting(k)) => Acts(k, tick) case _ => []
    requires HeldMoves(Holding(History(done), Pending(done)), heard, h', ms)
    ensures var done', due' := done + Heard(heard), rest + (xs + gs + ts + ms);
            && InLife(done', due', whole) && Unminted(done', due', plan, tick + 1)
            && h' == Holding(History(done'), Pending(done'))
  {
    hide Good, Project, Pending, Has, Bystands, Advances, HeldMoves, GovernorMoves;
    var due, done', due' := Heard(heard) + rest, done + Heard(heard), rest + (xs + gs + ts + ms);
    DoneGrows(done, heard, h', ms);
    SentReports(heard, xs, gs, ts, ms, tick);
    ViewMoves(done, heard, rest, xs + gs + ts + ms);
    if heard == None {
      assert due == rest;
      QuietMoves(done, rest, xs, gs, ts, ms, h', plan, tick);
      BystandingKeeps(ViewOf(done, due), ViewOf(done', due'), whole);
    } else {
      assert xs + gs + ts + ms == gs + ts + ms && due[0] == heard.value && due[1..] == rest;
      AdvanceMoves(done, heard.value, rest, gs, ts, ms, h', tick);
      AdvancingKeeps(ViewOf(done, due), ViewOf(done', due'), tick, whole);
      if done == [] { FirstHeard(heard.value, rest, whole); }
    }
  }

  /** The same delivery, of which only `cut`, the first of what is sent, was logged when the process died. */
  lemma CutMovesCombine(done: seq<Item>, heard: Option<Item>, rest: seq<Item>, xs: seq<Item>, gs: seq<Item>, ts: seq<Item>,
        ms: seq<Item>, h': Holding, plan: Id, tick: nat, cut: seq<Item>)
    requires InLife(done, Heard(heard) + rest, false) && Unminted(done, Heard(heard) + rest, plan, tick)
    requires xs == [] || (xs == [Proposing] && plan == Minted(tick, Executive, [2]) && heard == None)
    requires GovernorMoves(heard, gs)
    requires ts == match heard case Some(Granting(k)) => Acts(k, tick) case _ => []
    requires HeldMoves(Holding(History(done), Pending(done)), heard, h', ms)
    requires cut <= xs + gs + ts + ms
    ensures var all := done + Heard(heard) + rest + cut; InLife(all, [], false) && Unminted(all, [], plan, tick + 1)
  {
    hide Good, Left, Project, Pending, Has, Advances, HeldMoves, GovernorMoves, CutShort;
    var done', due1 := done + Heard(heard), rest + cut;
    MovesCombine(done, heard, rest, xs, gs, ts, ms, h', plan, tick, false);
    assert done' + due1 == done + Heard(heard) + rest + cut;
    if heard == None {
      assert Heard(heard) + rest == rest;
      QuietlyCut(done, rest, xs, gs, ts, ms, h', plan, tick, cut);
    } else {
      assert xs + gs + ts + ms == gs + ts + ms;
      AdvanceCut(done, heard.value, rest, gs, ts, ms, h', tick, cut);
    }
    DyingKeepsLife(done', due1);
  }

  /** A delivery of the plan's own next event, cut short. */
  lemma AdvanceCut(done: seq<Item>, heard: Item, rest: seq<Item>, gs: seq<Item>, ts: seq<Item>, ms: seq<Item>, h': Holding,
        tick: nat, cut: seq<Item>)
    requires InLife(done, [heard] + rest, false) && cut <= gs + ts + ms
    requires GovernorMoves(Some(heard), gs) && ts == match heard case Granting(k) => Acts(k, tick) case _ => []
    requires HeldMoves(Holding(History(done), Pending(done)), Some(heard), h', ms)
    ensures Left(ViewOf(done + [heard], rest + cut))
  {
    hide Good, Left, Project, Pending, Has, Advances, HeldMoves, GovernorMoves, CutShort, Acts;
    assert [] + gs + ts + ms == gs + ts + ms;
    SentReports(Some(heard), [], gs, ts, ms, tick);
    DoneGrows(done, Some(heard), h', ms);
    AdvanceMoves(done, heard, rest, gs, ts, ms, h', tick);
    CutViews(done, heard, rest, gs + ts + ms, cut);
    CuttingLeaves(ViewOf(done, [heard] + rest), ViewOf(done + [heard], rest + (gs + ts + ms)), tick, cut, ViewOf(done + [heard], rest + cut));
  }

  /** A delivery that is not about the plan sends one proposal of it at most, which was logged or not. */
  lemma QuietlyCut(done: seq<Item>, rest: seq<Item>, xs: seq<Item>, gs: seq<Item>, ts: seq<Item>, ms: seq<Item>, h': Holding,
        plan: Id, tick: nat, cut: seq<Item>)
    requires InLife(done, rest, false) && Unminted(done, rest, plan, tick)
    requires xs == [] || (xs == [Proposing] && plan == Minted(tick, Executive, [2]))
    requires GovernorMoves(None, gs) && ts == [] && HeldMoves(Holding(History(done), Pending(done)), None, h', ms)
    requires cut <= xs + gs + ts + ms
    ensures Left(ViewOf(done + Heard(None), rest + cut))
  {
    hide Good, Left, Project, Pending, Has, Bystands;
    assert xs + gs + ts + ms == xs && done + Heard(None) == done;
    if cut == [] {
      assert rest + cut == rest;
      GoodIsLeft(ViewOf(done, rest), false);
    } else {
      assert cut == xs;
      assert cut + [] + [] + [] == cut;
      QuietMoves(done, rest, cut, [], [], [], h', plan, tick);
      BystandingKeeps(ViewOf(done, rest), ViewOf(done, rest + cut), false);
      GoodIsLeft(ViewOf(done, rest + cut), false);
    }
  }

  lemma CutViews(done: seq<Item>, heard: Item, rest: seq<Item>, sent: seq<Item>, cut: seq<Item>)
    requires cut <= sent
    ensures var v, v', v1 := ViewOf(done, [heard] + rest), ViewOf(done + [heard], rest + sent), ViewOf(done + [heard], rest + cut);
            CutShort(v, v', cut, v1) && v'.outcomes == v.outcomes + Project(v'.queued[|v.queued| - 1..], ReportOf)
  {
    hide Project, Pending, Has;
    ViewMoves(done, Some(heard), rest, sent);
    ViewMoves(done, Some(heard), rest, cut);
    assert ([heard] + rest)[1..] == rest && (rest + sent)[|rest|..] == sent;
    assert rest + sent == rest + cut + sent[|cut|..];
  }

  lemma DoneGrows(done: seq<Item>, heard: Option<Item>, h': Holding, ms: seq<Item>)
    requires HeldMoves(Holding(History(done), Pending(done)), heard, h', ms)
    ensures h' == Holding(History(done + Heard(heard)), Pending(done + Heard(heard)))
  {
    hide Project, Pending;
    if heard == None {
      assert done + [] == done;
    } else {
      HistoryParts(done, [heard.value]);
      PendingSnoc(done, heard.value);
      ProjectOne(heard.value, EntryIn);
    }
  }

  /** Only a carried-out action adds a report. */
  lemma SentReports(heard: Option<Item>, xs: seq<Item>, gs: seq<Item>, ts: seq<Item>, ms: seq<Item>, tick: nat)
    requires xs == [] || xs == [Proposing]
    requires GovernorMoves(heard, gs)
    requires ts == match heard case Some(Granting(k)) => Acts(k, tick) case _ => []
    ensures Reports(xs + gs + ts + ms) == Reports(ms)
  {
    hide Project;
    assert Reports(xs) == [] by { if xs != [] { ProjectOne(Proposing, ReportOf); } else { ProjectNothing(xs, ReportOf); } }
    assert All(gs, Calm);
    CalmIsEarly(gs);
    EarlyIsLate(gs);
    assert All(ts, Early) by { if heard.Some? && heard.value.Granting? { ActsAreEarly(heard.value.actions, tick); } }
    EarlyIsLate(ts);
    ProjectConcat(xs + gs + ts, ms, ReportOf);
    ProjectConcat(xs + gs, ts, ReportOf);
    ProjectConcat(xs, gs, ReportOf);
  }

  /** The view after a delivery, field by field. */
  lemma ViewMoves(done: seq<Item>, heard: Option<Item>, rest: seq<Item>, sent: seq<Item>)
    ensures var v, v' := ViewOf(done, Heard(heard) + rest), ViewOf(done + Heard(heard), rest + sent);
            && (v'.proposed <==> v.proposed || heard == Some(Proposing))
            && (v'.actionable <==> v.actionable || (heard.Some? && IsGrant(heard.value)))
            && v'.outcomes == v.outcomes + Reports(sent)
  {
    hide Project, Pending, Has;
    var due := Heard(heard) + rest;
    assert done + Heard(heard) + (rest + sent) == done + due + sent;
    HistoryParts(done + due, sent);
    if heard == None {
      assert done + [] == done;
    } else {
      HasParts(done, [heard.value], IsProposal);
      HasParts(done, [heard.value], IsGrant);
      HasOne(heard.value, IsProposal);
      HasOne(heard.value, IsGrant);
    }
  }

  lemma QuietMoves(done: seq<Item>, due: seq<Item>, xs: seq<Item>, gs: seq<Item>, ts: seq<Item>, ms: seq<Item>, h': Holding,
        plan: Id, tick: nat)
    requires Unminted(done, due, plan, tick) && GovernorMoves(None, gs) && ts == []
    requires xs == [] || (xs == [Proposing] && plan == Minted(tick, Executive, [2]))
    requires HeldMoves(Holding(History(done), Pending(done)), None, h', ms)
    ensures Bystands(ViewOf(done, due), ViewOf(done + Heard(None), due + (xs + gs + ts + ms)))
    ensures Unminted(done + Heard(None), due + (xs + gs + ts + ms), plan, tick + 1)
  {
    hide Project, Pending, Has;
    var due' := due + (xs + gs + ts + ms);
    assert due' == due + xs && done + Heard(None) == done;
    HistoryParts(done + due, xs);
    assert done + due' == done + due + xs;
    if xs != [] {
      ProjectOne(Proposing, ReportOf);
      NothingDone();
      HasNothing();
    } else {
      ProjectNothing(xs, ReportOf);
    }
  }

  lemma HasNothing()
    ensures forall f: Item -> bool :: !Has([], f)
  {
  }

  lemma AdvanceMoves(done: seq<Item>, heard: Item, rest: seq<Item>, gs: seq<Item>, ts: seq<Item>, ms: seq<Item>, h': Holding,
        tick: nat)
    requires GovernorMoves(Some(heard), gs) && ts == match heard case Granting(k) => Acts(k, tick) case _ => []
    requires HeldMoves(Holding(History(done), Pending(done)), Some(heard), h', ms)
    requires Reports(gs + ts + ms) == Reports(ms)
    requires h' == Holding(History(done + [heard]), Pending(done + [heard]))
    ensures Advances(ViewOf(done, [heard] + rest), ViewOf(done + [heard], rest + (gs + ts + ms)), tick)
  {
    hide Project, Pending, Has, Acts, All;
    var v, v' := ViewOf(done, [heard] + rest), ViewOf(done + [heard], rest + (gs + ts + ms));
    ViewMoves(done, Some(heard), rest, gs + ts + ms);
    assert v.queued[0] == heard && v.queued[1..] == rest;
    ReportsSent(ms);
    match heard
    case Proposing =>
      var id :| ms == [Noting(id)];
      assert v'.queued == rest + (gs + [Noting(id)]);
    case Granting(n) => assert gs + ts + ms == Acts(n, tick);
    case Answering => assert gs + ts + ms == gs;
    case Acted(action) => assert gs + ts + ms == ms;
    case Reported(_, _) => assert gs + ts + ms == ms;
    case _ => assert gs + ts + ms == [];
  }

  lemma ReportsSent(ms: seq<Item>)
    ensures ms == [] ==> Reports(ms) == []
    ensures |ms| == 1 && ms[0].Reported? ==> Reports(ms) == [(ms[0].outcomeId, ms[0].actionId)]
    ensures |ms| == 1 && !ms[0].Reported? ==> Reports(ms) == []
  {
    if |ms| == 1 { assert ms == [ms[0]]; ProjectOne(ms[0], ReportOf); }
  }

  /** The first thing that happens to a plan is its proposal. */
  lemma FirstHeard(heard: Item, rest: seq<Item>, whole: bool)
    requires InLife([], [heard] + rest, whole)
    ensures heard == Proposing && Has([heard], IsProposal)
  {
    hide Project, Pending, Predicting, Waiting, Claimed, Settled, Unpredicted, Missed, Actions, IsFirstAction;
    HasNothing();
    var v := ViewOf([], [heard] + rest);
    assert ([heard] + rest)[0] == heard;
    if !Unborn(v) { ProposedByNow(v); }
    HasOne(heard, IsProposal);
  }

  lemma ProposedByNow(v: View)
    requires Predicting(v) || Waiting(v) || Claimed(v) || Settled(v) || Unpredicted(v) || Missed(v)
    ensures v.proposed
  {
  }

  // ---------------------------------------------------------------- over whole runs

  ghost predicate Known(p: Point) {
    O.InOrder(p) && A.Accountable(p)
  }

  /** Memory holds on every plan what the events dispatched so far make. */
  ghost predicate Remembered(s: M.MState, past: seq<Payload>) {
    forall plan :: Held(s, plan) == Holding(History(Items(past, plan)), Pending(Items(past, plan)))
  }

  ghost predicate Recalls(p: Point) {
    Known(p) && Remembered(p.o.memory, p.past)
  }

  ghost predicate LifeOf(p: Point, plan: Id, whole: bool) {
    var done, due := Items(Done(p), plan), Items(Due(p), plan);
    InLife(done, due, whole) && Unminted(done, due, plan, p.ticks)
  }

  ghost predicate Lives(p: Point, whole: bool) {
    Recalls(p) && forall plan :: LifeOf(p, plan, whole)
  }

  lemma StepStaysKnown(v: Setting, p: Point, move: Move, e: Event)
    requires Known(p) && Possible(p, move) && HeadIs(p, e)
    ensures Known(Stepped(v, p, move, e))
  {
    hide O.InOrder, A.Accountable, Possible, Stepped;
    O.StepStaysInOrder(v, p, move, e);
    A.StepStaysAccountable(v, p, move, e);
  }

  lemma ResolutionIsKnown(p: Point)
    requires O.InOrder(p) && p.queue != []
    ensures p.queue[0].OfMemory? && p.queue[0].m.PredictionResolved? ==> M.FirstPrediction(p.o.memory.predictions, p.queue[0].m.predictionId).Some?
  {
    hide O.InOrder, M.FirstPrediction;
    if p.queue[0].OfMemory? && p.queue[0].m.PredictionResolved? {
      O.HeadIsFound(p);
      O.PredictionFound(p.o.memory.predictions, p.queue[0].m.predictionId);
    }
  }

  lemma HeadRemembered(v: Setting, p: Point, e: Event)
    requires Recalls(p) && p.queue != [] && HeadIs(p, e)
    ensures Remembered(Successor(v, p.o, e, p.ticks).memory, p.past + [e.body])
  {
    hide P.Step, W.Step, X.Step, G.Step, T.Step, M.Step, Known, Held, Items, History, Pending, HeldMoves, ItemIn;
    assert O.InOrder(p) by { KnownInOrder(p); }
    ResolutionIsKnown(p);
    var s' := M.Step(Text(v), p.o.memory, e, p.ticks).state;
    forall plan ensures Held(s', plan) == Holding(History(Items(p.past + [e.body], plan)), Pending(Items(p.past + [e.body], plan))) {
      MemoryHears(Text(v), p.o.memory, e, p.ticks, plan);
      PastItems(p.past, e.body, plan);
      DoneGrows(Items(p.past, plan), ItemIn(e.body, plan), Held(s', plan), Items(M.Step(Text(v), p.o.memory, e, p.ticks).published, plan));
    }
  }

  lemma KnownInOrder(p: Point)
    requires Known(p)
    ensures O.InOrder(p) && A.Accountable(p)
  {
  }

  lemma NothingRemembered()
    ensures Remembered(Organism.Initial().memory, [])
  {
  }

  lemma ConfiguringRemembers(o: OState, o': OState)
    requires Reconfigures(o, o')
    ensures o'.memory == o.memory
  {
    hide BeliefsInRange;
  }

  lemma StepRecalls(v: Setting, p: Point, move: Move, e: Event)
    requires Recalls(p) && Possible(p, move) && Affords(NoDrops, p, move) && HeadIs(p, e)
    ensures Recalls(Stepped(v, p, move, e))
  {
    hide Known, Remembered, Publications, Successor, Outside, Reconfigures;
    StepStaysKnown(v, p, move, e);
    NothingRemembered();
    match move
    case Next => HeadRemembered(v, p, e);
    case Hear => HeadRemembered(v, p, e);
    case Configure(o) => ConfiguringRemembers(p.o, o);
    case _ =>
  }

  lemma BornRecalling()
    ensures Recalls(Birth())
  {
    O.BornInOrder();
    A.NothingToAccountFor();
    NothingRemembered();
  }

  lemma RunsRecall(v: Setting, moves: seq<Move>)
    requires Legal(v, moves) && Loses(v, moves, NoDrops)
    ensures Recalls(Here(v, moves))
  {
    hide Reached, Legal, Loses, Recalls, Possible, Affords, Stepped;
    var inv := (p: Point) => Recalls(p);
    BornRecalling();
    forall p, move, e: Event | inv(p) && Possible(p, move) && Affords(NoDrops, p, move) && HeadIs(p, e)
      ensures inv(Stepped(v, p, move, e)) {
      StepRecalls(v, p, move, e);
    }
    RunsKeep(v, moves, NoDrops, inv);
  }

  lemma AnswersAreAddressed(p: Point, e: Event)
    requires A.Accountable(p) && p.queue != [] && HeadIs(p, e)
    ensures Addressed(p.o.governor, e.body)
  {
    hide A.Traced, A.Escalations;
    if A.Settles(e.body) && e.body.g.escalationId in p.o.governor.pendingEscalations {
      A.SettledPlan(p, e, p.o.governor.pendingEscalations[e.body.g.escalationId].planId);
    }
  }

  lemma DeliveryLived(v: Setting, p: Point, e: Event, plan: Id, whole: bool)
    requires Lives(p, whole) && !p.replaying && p.queue != [] && HeadIs(p, e)
    ensures LifeOf(Moved(v, p, e), plan, whole)
  {
    hide P.Step, W.Step, X.Step, G.Step, T.Step, M.Step, Publications, Held, By, Items, History, Pending, GovernorMoves, HeldMoves,
         ItemIn, Unminted, InLife, A.Accountable, O.InOrder, Addressed;
    var o, tick := p.o, p.ticks;
    assert LifeOf(p, plan, whole);
    ResolutionIsKnown(p);
    AnswersAreAddressed(p, e);
    PublicationItems(v, o, e, tick, plan);
    QueueItems(p.queue, Publications(v, o, e, tick), plan);
    PastItems(p.past, e.body, plan);
    ExecutiveHears(Text(v), o.executive, e, tick, plan);
    GovernorHears(v.governor, o.governor, e, tick, plan);
    ExecutorHears(Text(v), v.behaviour, o.executor, e, tick, plan);
    MemoryHears(Text(v), o.memory, e, tick, plan);
    MovesCombine(Items(p.past, plan), ItemIn(e.body, plan), Items(p.queue[1..], plan),
                 Items(X.Step(Text(v), o.executive, e, tick).published, plan), Items(G.Step(v.governor, o.governor, e, tick).published, plan),
                 Items(T.Step(Text(v), v.behaviour, o.executor, e, tick).published, plan), Items(M.Step(Text(v), o.memory, e, tick).published, plan),
                 Held(M.Step(Text(v), o.memory, e, tick).state, plan), plan, tick, whole);
  }

  /** What was logged of a delivery is the first of what it sends for each plan. */
  lemma TakenItems(ps: seq<Payload>, n: nat, plan: Id)
    ensures Items(Taken(ps, n), plan) <= Items(ps, plan)
  {
    hide ItemIn;
    var taken := Taken(ps, n);
    assert ps == taken + ps[|taken|..];
    ProjectConcat(taken, ps[|taken|..], ItemOf(plan));
  }

  lemma TornLife(v: Setting, p: Point, e: Event, n: nat, plan: Id)
    requires Lives(p, false) && !p.replaying && p.queue != [] && HeadIs(p, e)
    ensures LifeOf(Torn(v, p, e, n), plan, false)
  {
    hide P.Step, W.Step, X.Step, G.Step, T.Step, M.Step, Publications, Held, By, Items, History, Pending, GovernorMoves, HeldMoves,
         ItemIn, Unminted, InLife, A.Accountable, O.InOrder, Addressed;
    var o, tick := p.o, p.ticks;
    assert LifeOf(p, plan, false);
    ResolutionIsKnown(p);
    AnswersAreAddressed(p, e);
    var pubs := Publications(v, o, e, tick);
    PublicationItems(v, o, e, tick, plan);
    QueueItems(p.queue, pubs, plan);
    PastItems(p.past, e.body, plan);
    ExecutiveHears(Text(v), o.executive, e, tick, plan);
    GovernorHears(v.governor, o.governor, e, tick, plan);
    ExecutorHears(Text(v), v.behaviour, o.executor, e, tick, plan);
    MemoryHears(Text(v), o.memory, e, tick, plan);
    TakenItems(pubs, n, plan);
    CutMovesCombine(Items(p.past, plan), ItemIn(e.body, plan), Items(p.queue[1..], plan),
                    Items(X.Step(Text(v), o.executive, e, tick).published, plan), Items(G.Step(v.governor, o.governor, e, tick).published, plan),
                    Items(T.Step(Text(v), v.behaviour, o.executor, e, tick).published, plan), Items(M.Step(Text(v), o.memory, e, tick).published, plan),
                    Held(M.Step(Text(v), o.memory, e, tick).state, plan), plan, tick, Items(Taken(pubs, n), plan));
    TornItems(p, Taken(pubs, n), plan);
    assert Done(Torn(v, p, e, n)) == Log(p) + Taken(pubs, n) && Due(Torn(v, p, e, n)) == [];
  }

  lemma TornItems(p: Point, logged: seq<Payload>, plan: Id)
    requires p.queue != []
    ensures Items(Log(p) + logged, plan)
         == Items(p.past, plan) + Heard(ItemIn(p.queue[0], plan)) + Items(p.queue[1..], plan) + Items(logged, plan)
    ensures Items([], plan) == []
  {
    hide Project, ItemIn;
    NoItems([], plan);
    PastItems(p.past, p.queue[0], plan);
    LogTurns(p);
    ProjectConcat(p.past + [p.queue[0]], p.queue[1..], ItemOf(plan));
    ProjectConcat(Log(p), logged, ItemOf(plan));
  }

  /** What was due when a process died is done with, and nothing follows it. */
  lemma DyingLife(p: Point, plan: Id)
    requires LifeOf(p, plan, false)
    ensures LifeOf(Rebooted(p), plan, false)
  {
    hide Good, Left, History, Pending, Has, Reports, Items;
    var done, due := Items(Done(p), plan), Items(Due(p), plan);
    GoodIsLeft(ViewOf(done, due), false);
    DyingKeepsLife(done, due);
    RebootedItems(p, plan);
  }

  lemma RebootedItems(p: Point, plan: Id)
    ensures Items(Done(Rebooted(p)), plan) == Items(Done(p), plan) + Items(Due(p), plan) && Items(Due(Rebooted(p)), plan) == []
  {
    hide ItemIn;
    RebootingIsDying(p);
    ProjectConcat(Done(p), Due(p), ItemOf(plan));
    NoItems([], plan);
  }

  lemma OutsideIs(o: OState, body: Payload, plan: Id)
    requires Outside(o, body)
    ensures ItemIn(body, plan) == None || (ItemIn(body, plan) == Some(Answering) && A.Settles(body) && body.g.planId == plan
                                           && body.g.escalationId in o.governor.pendingEscalations
                                           && o.governor.pendingEscalations[body.g.escalationId].planId == plan)
  {
  }

  /** A plan with an escalation in the log has been proposed. */
  lemma EscalatedIsBorn(p: Point, id: Id, plan: Id, whole: bool)
    requires A.EscalatedFor(Log(p), id, plan) && Done(p) + Due(p) == Log(p)
    requires InLife(Items(Done(p), plan), Items(Due(p), plan), whole)
    ensures !Unborn(ViewOf(Items(Done(p), plan), Items(Due(p), plan)))
  {
    hide History, Pending, Good;
    var c :| c in Log(p) && A.Creates(c) && c.g.escalationId == id && c.g.planId == plan;
    var i :| 0 <= i < |Log(p)| && Log(p)[i] == c;
    ProjectMember(Log(p), ItemOf(plan), i);
    ProjectConcat(Done(p), Due(p), ItemOf(plan));
    assert Escalating in Items(Done(p), plan) || Escalating in Items(Due(p), plan);
  }

  lemma EnteringLives(p: Point, p': Point, body: Payload, plan: Id, whole: bool)
    requires A.Accountable(p) && LifeOf(p, plan, whole) && Outside(p.o, body) && Done(p) + Due(p) == Log(p)
    requires Done(p') == Done(p) && Due(p') == Due(p) + [body] && p'.ticks == p.ticks
    ensures LifeOf(p', plan, whole)
  {
    hide Good, History, Pending, Has, Unborn, A.Traced, A.Escalations, A.EscalatedFor, Project, ItemIn, Outside;
    var done, due := Items(Done(p), plan), Items(Due(p), plan);
    OutsideIs(p.o, body, plan);
    PastItems(Due(p), body, plan);
    if ItemIn(body, plan) == None {
      assert due + [] == due;
    } else {
      var id := body.g.escalationId;
      assert A.EscalatedFor(Log(p), id, plan) by { PendingIsEscalated(p, id); }
      EscalatedIsBorn(p, id, plan, whole);
      HistoryParts(done + due, [Answering]);
      ProjectOne(Answering, ReportOf);
      assert done + (due + [Answering]) == done + due + [Answering];
      BystandingKeeps(ViewOf(done, due), ViewOf(done, due + [Answering]), whole);
      BornIsMinted(done, due);
    }
  }

  lemma PendingIsEscalated(p: Point, id: Id)
    requires A.Escalations(Log(p), p.o.governor.pendingEscalations, p.ticks) && id in p.o.governor.pendingEscalations
    ensures A.EscalatedFor(Log(p), id, p.o.governor.pendingEscalations[id].planId)
  {
    hide A.EscalatedFor, A.Distinct;
  }

  lemma BornIsMinted(done: seq<Item>, due: seq<Item>)
    requires !Unborn(ViewOf(done, due))
    ensures done != [] || due != []
  {
    if done == [] && due == [] { NothingDone(); HasNothing(); }
  }

  lemma StepLives(v: Setting, p: Point, move: Move, e: Event)
    requires Lives(p, true) && Possible(p, move) && Affords(NoLoss, p, move) && HeadIs(p, e)
    ensures Lives(Stepped(v, p, move, e), true)
  {
    hide Remembered, InLife, Unminted, Items, Outside, Reconfigures, Publications, Successor, Done, Due, A.Accountable, O.InOrder;
    var p' := Stepped(v, p, move, e);
    StepRecalls(v, p, move, e);
    LosslessStep(v, p, move, e);
    forall plan ensures LifeOf(p', plan, true) {
      assert LifeOf(p, plan, true);
      match move {
        case Next => DeliveryLived(v, p, e, plan, true);
        case Enter(body, _) => EnteringLives(p, p', body, plan, true);
        case Hear => Ages(Items(Done(p), plan), Items(Due(p), plan), plan, p.ticks);
        case _ =>
      }
    }
  }

  lemma Ages(done: seq<Item>, due: seq<Item>, plan: Id, ticks: nat)
    requires Unminted(done, due, plan, ticks)
    ensures Unminted(done, due, plan, ticks + 1)
  {
  }

  /** Whatever is lost, short of a drop. */
  lemma StepSurvives(v: Setting, p: Point, move: Move, e: Event)
    requires Lives(p, false) && Possible(p, move) && Affords(NoDrops, p, move) && HeadIs(p, e)
    ensures Lives(Stepped(v, p, move, e), false)
  {
    hide Remembered, InLife, Unminted, Items, Outside, Reconfigures, Publications, Successor, A.Accountable, O.InOrder;
    var p' := Stepped(v, p, move, e);
    StepRecalls(v, p, move, e);
    forall plan ensures LifeOf(p', plan, false) {
      assert LifeOf(p, plan, false);
      match move {
        case Next => DeliveryLived(v, p, e, plan, false);
        case Enter(body, _) => EnteringLives(p, p', body, plan, false);
        case Reboot => DyingLife(p, plan);
        case Tear(n) => TornLife(v, p, e, n, plan);
        case Hear => HearingDoesNothing(v, p, e); Ages(Items(Done(p), plan), Items(Due(p), plan), plan, p.ticks);
        case Configure(o) =>
      }
    }
  }

  lemma NothingLivesYet(whole: bool)
    ensures Lives(Birth(), whole)
  {
    BornRecalling();
    forall plan ensures LifeOf(Birth(), plan, whole) {
      assert Items(Done(Birth()), plan) == [] && Items(Due(Birth()), plan) == [];
      UnbornLife(whole);
    }
  }

  lemma UnbornLife(whole: bool)
    ensures InLife([], [], whole)
  {
    NothingDone();
    HasNothing();
  }

  lemma RunsKeepLives(v: Setting, moves: seq<Move>)
    requires Legal(v, moves) && Loses(v, moves, NoLoss)
    ensures Lives(Here(v, moves), true)
  {
    hide Reached, Legal, Loses, Lives, Possible, Affords, Stepped;
    var inv := (p: Point) => Lives(p, true);
    NothingLivesYet(true);
    forall p, move, e: Event | inv(p) && Possible(p, move) && Affords(NoLoss, p, move) && HeadIs(p, e)
      ensures inv(Stepped(v, p, move, e)) {
      StepLives(v, p, move, e);
    }
    RunsKeep(v, moves, NoLoss, inv);
  }

  lemma RunsLeaveLives(v: Setting, moves: seq<Move>)
    requires Legal(v, moves) && Loses(v, moves, NoDrops)
    ensures Lives(Here(v, moves), false)
  {
    hide Reached, Legal, Loses, Lives, Possible, Affords, Stepped;
    var inv := (p: Point) => Lives(p, false);
    NothingLivesYet(false);
    forall p, move, e: Event | inv(p) && Possible(p, move) && Affords(NoDrops, p, move) && HeadIs(p, e)
      ensures inv(Stepped(v, p, move, e)) {
      StepSurvives(v, p, move, e);
    }
    RunsKeep(v, moves, NoDrops, inv);
  }

  // ---------------------------------------------------------------- what is promised of Memory's ledger

  /** Memory's prediction history of a plan, and what it has pending for it, are as the log asks. */
  ghost predicate FirstOutcomeRules(s: M.MState, log: seq<Payload>, plan: Id) {
    ByFirstOutcome(Project(s.predictions, EntryOf(plan)), PendingId(Lookup(s.pending, plan)), Items(log, plan))
  }

  /**
   While nothing is lost, whenever the queue has drained, for every plan ever proposed: if it was granted with at
   least one ordered action, its prediction history is exactly [pending, resolved], resolved by the outcome recorded
   first for the plan; otherwise its prediction is still pending and nothing was done for it. And that first outcome is
   of the action the plan's grant orders first.
   */
  lemma FirstOutcomeWins(v: Setting, moves: seq<Move>, plan: Id)
    requires Legal(v, moves) && Loses(v, moves, NoLoss) && Here(v, moves).queue == []
    ensures FirstOutcomeRules(Here(v, moves).o.memory, Log(Here(v, moves)), plan)
    ensures FirstIsOrdered(Log(Here(v, moves)), plan)
  {
    hide Here, Legal, Loses, Known, History, Pending, Items, InLife, ByFirstOutcome, Held, FirstIsOrdered;
    var p := Here(v, moves);
    LossesCompare(v, moves);
    FirstIsAlwaysOrdered(v, moves, plan);
    RunsKeepLives(v, moves);
    assert LifeOf(p, plan, true) && Done(p) == p.past == Log(p) && Due(p) == [];
    assert Items([], plan) == [] by { NoItems([], plan); }
    HoldingOf(p.o.memory, plan);
    DrainedIsByFirstOutcome(Items(p.past, plan));
  }

  /** The outcome recorded first for a plan is of the first action some grant of the plan orders. */
  ghost predicate FirstIsOrdered(log: seq<Payload>, plan: Id) {
    var outcomes := Reports(Items(log, plan));
    outcomes != [] ==> C.FirstOrdered(log, outcomes[0].1, plan)
  }

  lemma ReportIsRecorded(log: seq<Payload>, plan: Id, i: nat) returns (k: nat)
    requires i < |Reports(Items(log, plan))|
    ensures k < |log| && Causality.Records(log[k], Reports(Items(log, plan))[i].1, plan)
  {
    hide Project;
    var report := Reports(Items(log, plan))[i];
    var j := ProjectOrigin(Items(log, plan), ReportOf, report);
    var item := Items(log, plan)[j];
    assert item in Items(log, plan);
    k := ProjectOrigin(log, ItemOf(plan), item);
  }

  /** Short of a drop, that is so whatever was lost. */
  lemma FirstIsAlwaysOrdered(v: Setting, moves: seq<Move>, plan: Id)
    requires Legal(v, moves) && Loses(v, moves, NoDrops)
    ensures FirstIsOrdered(Log(Here(v, moves)), plan)
  {
    hide Here, Legal, Loses, Known, History, Pending, Items, Held, Project, Unminted, C.Ordered, Has;
    var p := Here(v, moves);
    var log := Log(p);
    var outcomes := Reports(Items(log, plan));
    if outcomes != [] {
      RunsLeaveLives(v, moves);
      assert LifeOf(p, plan, false);
      LogOfLife(p, plan);
      OutcomesAreOfActions(Items(Done(p), plan), Items(Due(p), plan), false);
      var k := ReportIsRecorded(log, plan, 0);
      C.ActionsAreAuthorised(v, moves, k, outcomes[0].1, plan);
      C.OrderedStill(log, k + 1, |log|, outcomes[0].1, plan);
    }
  }

  lemma LogOfLife(p: Point, plan: Id)
    ensures Items(Log(p), plan) == Items(Done(p), plan) + Items(Due(p), plan)
  {
    hide Project;
    ProjectConcat(Done(p), Due(p), ItemOf(plan));
    assert Done(p) + Due(p) == Log(p);
  }

  lemma HoldingOf(s: M.MState, plan: Id)
    ensures Held(s, plan) == Holding(Project(s.predictions, EntryOf(plan)), PendingId(Lookup(s.pending, plan)))
  {
  }

  lemma DrainedIsByFirstOutcome(done: seq<Item>)
    requires InLife(done, [], true)
    ensures ByFirstOutcome(History(done), Pending(done), done)
  {
    hide Good, History, Pending, Reports;
    HasNothing();
    if Has(done, IsProposal) {
      DrainedLife(ViewOf(done, []));
      assert done + [] == done;
    }
  }

  /**
   As long as shutdown drops nothing, however often a process died, between dispatches or in the middle of one: whenever
   the queue has drained, the promise is kept for a plan exactly when the log predicts it if it proposes it, and resolves
   its prediction if it grants it something to do.
   */
  lemma FirstOutcomeRulesIff(v: Setting, moves: seq<Move>, plan: Id)
    requires Legal(v, moves) && Loses(v, moves, NoDrops) && Here(v, moves).queue == []
    ensures FirstOutcomeRules(Here(v, moves).o.memory, Log(Here(v, moves)), plan) <==> Complete(Items(Log(Here(v, moves)), plan))
  {
    hide Here, Legal, Loses, Known, History, Pending, Items, InLife, ByFirstOutcome, Held, Complete;
    var p := Here(v, moves);
    RunsLeaveLives(v, moves);
    assert LifeOf(p, plan, false) && Done(p) == p.past == Log(p) && Due(p) == [];
    assert Items([], plan) == [] by { NoItems([], plan); }
    HoldingOf(p.o.memory, plan);
    FirstOutcomeIffComplete(Items(p.past, plan));
  }

  /**
   The first crash. A process that has lost nothing dies with events still queued, and its successor replays the log:
   the promise is kept for a plan exactly when no proposal of it was queued and, if the log grants it something to do,
   the log also resolves its prediction.
   */
  lemma CrashKeepsFirstOutcomeRulingIff(v: Setting, moves: seq<Move>, plan: Id)
    requires Legal(v, moves) && Loses(v, moves, NoLoss) && !Here(v, moves).replaying
    ensures var p, p' := Here(v, moves), Here(v, Crash(v, moves));
            FirstOutcomeRules(p'.o.memory, Log(p), plan) <==>
            !Has(Items(p.queue, plan), IsProposal) && (Has(Items(Log(p), plan), IsGrant) ==> Has(Items(Log(p), plan), IsFix))
  {
    hide Here, Legal, Loses, Known, History, Pending, Items, InLife, ByFirstOutcome, Held, Crash, Has;
    var p := Here(v, moves);
    RunsKeepLives(v, moves);
    assert LifeOf(p, plan, true) && Done(p) == p.past && Due(p) == p.queue;
    LossesCompare(v, moves);
    CrashIs(v, moves);
    RunsRecall(v, Crash(v, moves));
    HoldingOf(Here(v, Crash(v, moves)).o.memory, plan);
    LogItems(p, plan);
    CrashKeepsFirstOutcomeIff(Items(p.past, plan), Items(p.queue, plan));
  }

  lemma LogItems(p: Point, plan: Id)
    ensures Items(Log(p), plan) == Items(p.past, plan) + Items(p.queue, plan)
  {
    ProjectConcat(p.past, p.queue, ItemOf(plan));
  }

  /**
   The first stop. A process that has lost nothing is shut down with events still queued: the promise is kept for a plan
   exactly when neither its proposal, nor its prediction, nor the resolution of it was queued and, if the log grants it
   something to do, its prediction had been resolved.
   */
  lemma HaltKeepsFirstOutcomeRulingIff(v: Setting, moves: seq<Move>, plan: Id)
    requires Legal(v, moves) && Loses(v, moves, NoLoss) && !Here(v, moves).replaying
    requires forall p <- Here(v, moves).queue :: !Lifecycle(p)
    ensures var p, p' := Here(v, moves), Here(v, Halt(v, moves));
            var due := Items(p.queue, plan);
            FirstOutcomeRules(p'.o.memory, Log(p), plan) <==>
            !Has(due, IsProposal) && !Has(due, IsNote) && !Has(due, IsFix)
            && (Has(Items(Log(p), plan), IsGrant) ==> Has(Items(p.past, plan), IsFix))
  {
    hide Here, Legal, Loses, Known, History, Pending, Items, InLife, ByFirstOutcome, Held, Halt, Has;
    var p := Here(v, moves);
    RunsKeepLives(v, moves);
    assert LifeOf(p, plan, true) && Done(p) == p.past && Due(p) == p.queue;
    HaltIs(v, moves);
    HoldingOf(p.o.memory, plan);
    LogItems(p, plan);
    HaltKeepsFirstOutcomeIff(Items(p.past, plan), Items(p.queue, plan));
  }
}
