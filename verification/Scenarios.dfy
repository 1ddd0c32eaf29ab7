/** Runs of the organism that lose something, step by step, and what it is that is no longer true after them. */
module Scenarios {
  import opened Prelude
  import opened Ordering
  import opened Events
  import opened Rules
  import opened KernelModel
  import opened Organism
  import opened Runs
  import A = Authority
  import F = FirstOutcome
  import K = KernelTheorems
  import L = Learning
  import N = Novelty
  import PL = PlanLog
  import PlanLife
  import R = Recovery
  import S = Sandboxes
  import P = PerceptionModel
  import W = WorldModelModel
  import X = ExecutiveModel
  import G = GovernorModel
  import GT = GovernorTheorems
  import T = ExecutorModel
  import M = MemoryModel

  // ---------------------------------------------------------------- taking a run further

  /** Nothing has been lost, and the process has never died. */
  ghost predicate Untroubled(v: Setting, moves: seq<Move>) {
    Loses(v, moves, NoLoss) && N.Survives(moves)
  }

  lemma Forward(v: Setting, moves: seq<Move>, move: Move) returns (e: Event)
    requires Legal(v, moves) && Untroubled(v, moves) && (move.Next? || move.Enter? || move.Configure?)
    requires Possible(Here(v, moves), move)
    ensures Legal(v, moves + [move]) && Untroubled(v, moves + [move])
    ensures HeadIs(Here(v, moves), e)
    ensures Here(v, moves + [move]) == Stepped(v, Here(v, moves), move, e)
  {
    hide Here, Legal, Loses, Outside, Reconfigures, Stepped;
    OneMore(v, moves, move);
    assert Affords(NoLoss, Here(v, moves), move);
    e :| HeadIs(Here(v, moves), e)
         && Here(v, moves + [move]) == Stepped(v, Here(v, moves), move, e);
  }

  /** The run delivers the head of its queue. */
  lemma Onward(v: Setting, moves: seq<Move>) returns (e: Event)
    requires Legal(v, moves) && Untroubled(v, moves) && !Here(v, moves).replaying && Here(v, moves).queue != []
    ensures Legal(v, moves + [Next]) && Untroubled(v, moves + [Next])
    ensures HeadIs(Here(v, moves), e) && Here(v, moves + [Next]) == Moved(v, Here(v, moves), e)
  {
    hide Here, Legal, Loses, Moved, Publications, Successor;
    e := Forward(v, moves, Next);
  }

  // ---------------------------------------------------------------- an organism with nothing configured

  /** No constitution, no budget, no tool, no credential. */
  predicate Bare(o: OState) {
    && o.governor.constitutions == [] && o.governor.activeBudget == None
    && o.executor.equipment.tools == {} && o.executor.equipment.credentials == map[]
  }

  predicate EquipsNothing(p: Payload) {
    && !(p.OfGovernor? && p.g.ConstitutionAmended?)
    && !(p.OfExecutor? && (p.t.CredentialRegistered? || p.t.CredentialUpdated?))
  }

  lemma BareStays(v: Setting, o: OState, e: Event, tick: nat)
    requires Bare(o) && EquipsNothing(e.body)
    ensures Bare(Successor(v, o, e, tick))
  {
    hide P.Step, W.Step, X.Step, G.Step, T.Step, M.Step;
    GT.RegimeKept(v.governor, o.governor, e, tick);
    BudgetStays(v.governor, o.governor, e, tick);
    ToolsStay(Text(v), v.behaviour, o.executor, e, tick);
  }

  lemma BudgetStays(v: G.Env, s: G.GState, e: Event, tick: nat)
    ensures G.Step(v, s, e, tick).state.activeBudget == s.activeBudget
  {
    hide G.OnPlanProposed, G.OnResearchSpendRequested, G.OnGovernance, G.OnRevisionCompleted, By;
  }

  lemma ToolsStay(n: Notation, b: T.Behaviour, s: T.TState, e: Event, tick: nat)
    requires EquipsNothing(e.body) && s.equipment.credentials == map[]
    ensures T.Step(n, b, s, e, tick).state.equipment == s.equipment
  {
    hide T.ExecuteFrom, By;
  }

  // ---------------------------------------------------------------- who answers what

  /** Events that nobody answers, and that change nothing of what the scenarios follow. */
  predicate Quiet(p: Payload) {
    match p
    case OfExecutive(x) => x.OpportunityIdentified? || x.OpportunityScored?
    case OfGovernor(g) => g.ApprovalRequired?
    case OfExecutor(t) => t.ActionApproved? || t.ActionAttempted?
    case OfMemory(m) => m.LedgerEntryPosted?
    case _ => false
  }

  lemma NobodyAnswers(v: Setting, o: OState, e: Event, tick: nat)
    requires Quiet(e.body)
    ensures Publications(v, o, e, tick) == []
    ensures var o' := Successor(v, o, e, tick);
            o'.memory.pending == o.memory.pending && o'.governor == o.governor && o'.executor == o.executor
  {
    hide Publications, P.Step, W.Step, X.Step, G.Step, T.Step, M.Step;
    assert Rank(e.body) == 0;
    LowestIsUnanswered(v, o, e, tick);
    QuietForGovernor(v.governor, o.governor, e, tick);
    QuietForExecutor(Text(v), v.behaviour, o.executor, e, tick);
    QuietForMemory(Text(v), o.memory, e, tick);
  }

  lemma QuietForGovernor(v: G.Env, s: G.GState, e: Event, tick: nat)
    requires Quiet(e.body)
    ensures G.Step(v, s, e, tick).state == s
  {
    hide G.OnPlanProposed, G.OnResearchSpendRequested, G.OnRevisionCompleted, By;
  }

  lemma QuietForExecutor(n: Notation, b: T.Behaviour, s: T.TState, e: Event, tick: nat)
    requires Quiet(e.body)
    ensures T.Step(n, b, s, e, tick).state == s
  {
    hide T.OnApprovalGranted, By;
  }

  lemma QuietForMemory(n: Notation, s: M.MState, e: Event, tick: nat)
    requires Quiet(e.body)
    ensures M.Step(n, s, e, tick).state.pending == s.pending
  {
    hide M.Learn, M.OnPredictionResolved, M.Record, By;
  }

  lemma SensesSilent(p: P.PState, w: W.WState, e: Event)
    requires !(e.body.OfExecutive? && e.body.x.ResearchIntent?) && !e.body.OfPerception?
    ensures P.Step(p, e).published == [] && W.Step(w, e).published == []
  {
  }

  lemma ExecutiveSilent(n: Notation, s: X.XState, e: Event, tick: nat)
    requires (e.body.OfGovernor? && !e.body.g.ResearchSpendApproved?) || e.body.OfPerception? || (e.body.OfExecutive? && e.body.x.PlanProposed?)
    ensures X.Step(n, s, e, tick).published == []
    ensures e.body.OfPerception? ==> X.Step(n, s, e, tick).state == s
  {
    hide By;
  }

  lemma DecidersSilent(v: Setting, o: OState, e: Event, tick: nat)
    requires e.body.OfPerception?
    ensures G.Step(v.governor, o.governor, e, tick).published == []
    ensures T.Step(Text(v), v.behaviour, o.executor, e, tick).published == []
  {
  }

  lemma MemorySilent(n: Notation, s: M.MState, e: Event, tick: nat)
    requires (e.body.OfGovernor? && !e.body.g.ResearchSpendApproved?) || e.body.OfPerception?
    ensures M.Step(n, s, e, tick).published == [] && M.Step(n, s, e, tick).state == s
  {
    hide By;
  }

  lemma OnlyWorldModelAnswers(v: Setting, o: OState, e: Event, tick: nat)
    requires e.body.OfPerception?
    ensures Publications(v, o, e, tick) == W.Step(o.worldModel, e).published
    ensures Successor(v, o, e, tick).executive == o.executive && Successor(v, o, e, tick).memory.pending == o.memory.pending
  {
    hide P.Step, W.Step, X.Step, G.Step, T.Step, M.Step;
    PerceptionIgnores(o.perception, e);
    ExecutiveSilent(Text(v), o.executive, e, tick);
    DecidersSilent(v, o, e, tick);
    MemorySilent(Text(v), o.memory, e, tick);
  }

  lemma PerceptionIgnores(s: P.PState, e: Event)
    requires e.body.OfPerception?
    ensures P.Step(s, e).published == []
  {
  }

  lemma OnlyExecutiveAnswers(v: Setting, o: OState, e: Event, tick: nat)
    requires e.body.OfWorldModel? || (e.body.OfExecutive? && (e.body.x.GenerationStarted? || e.body.x.GenerationCompleted?))
    ensures Publications(v, o, e, tick) == X.Step(Text(v), o.executive, e, tick).published
    ensures Successor(v, o, e, tick).memory.pending == o.memory.pending
  {
    hide X.Step, G.OnPlanProposed, G.OnResearchSpendRequested, G.OnGovernance, G.OnRevisionCompleted, T.OnApprovalGranted,
         T.OnOwn, M.OnOwn, M.OnAction, By;
  }

  // ---------------------------------------------------------------- from an observation to a plan

  const SENSED := OfPerception(ObservationCreated("s", "v", 0.5))

  predicate Believed(p: Point) {
    && !p.replaying && Bare(p.o) && p.o.executive == X.Initial() && |p.queue| == 1
    && p.queue[0].OfWorldModel? && p.queue[0].w.BeliefCreated?
  }

  lemma ObservationIsBelieved(v: Setting, e: Event, ticks: nat)
    requires e.body == SENSED
    ensures Believed(Moved(v, Entered(Birth(), SENSED).(ticks := ticks), e))
  {
    hide W.Clamp, W.BeliefId, X.OnKernelStarted, X.OnWorldModel, X.OnOwn, X.OnGovernor, X.OnOutcomeRecorded,
         G.OnPlanProposed, G.OnResearchSpendRequested, G.OnGovernance, G.OnRevisionCompleted, T.OnApprovalGranted, T.OnOwn,
         M.OnOwn, M.OnExecutive, M.OnAction;
    var o := Organism.Initial();
    OnlyWorldModelAnswers(v, o, e, ticks);
    BareStays(v, o, e, ticks);
  }

  /** One belief, in a cluster of its own, none of it pursued yet. */
  predicate Clustered(c: X.Clusters, signature: Signature, beliefId: string) {
    && c.members == map[signature := {beliefId}] && beliefId in c.confidence
    && c.generated == map[] && c.resolved == {} && c.groupOf == map[]
  }

  predicate Starting1(p: Point) {
    && !p.replaying && Bare(p.o) && |p.queue| == 1 && p.queue[0].OfExecutive? && p.queue[0].x.GenerationStarted?
    && Clustered(p.o.executive.clusters, p.queue[0].x.signature, p.queue[0].x.beliefId)
  }

  lemma BeliefStartsAPass(v: Setting, p: Point, e: Event)
    requires Believed(p) && HeadIs(p, e)
    ensures Starting1(Moved(v, p, e))
  {
    hide X.OnWorldModel, By, P.Step, W.Step, G.Step, T.Step, M.Step, Publications;
    OnlyExecutiveAnswers(v, p.o, e, p.ticks);
    BareStays(v, p.o, e, p.ticks);
    FirstSignal(e.body.w, e.correlation, p.ticks);
    assert p.queue[1..] == [];
  }

  lemma FirstSignal(w: WorldModelEvent, correlation: Correlation, tick: nat)
    requires w.BeliefCreated?
    ensures var r := X.OnWorldModel(X.Initial(), w, correlation, tick);
            && |r.published| == 1 && r.published[0].OfExecutive? && r.published[0].x.GenerationStarted?
            && Clustered(r.state.clusters, r.published[0].x.signature, r.published[0].x.beliefId)
  {
    hide X.ClaimKey, By;
    assert {} + {w.beliefId} == {w.beliefId};
  }

  predicate Completing1(p: Point) {
    && !p.replaying && Bare(p.o) && |p.queue| == 1 && p.queue[0].OfExecutive? && p.queue[0].x.GenerationCompleted?
    && p.queue[0].x.accepted && p.queue[0].x.groupId.Some? && p.queue[0].x.opportunity.Some?
    && X.FirstGeneration(p.o.executive.stores.generations, p.queue[0].x.generationId).Some?
  }

  lemma ClusterOfOne(c: X.Clusters, signature: Signature, beliefId: string)
    requires Clustered(c, signature, beliefId)
    ensures X.Cluster(c, signature) == [beliefId] && X.Confidences(c, [beliefId]) == [c.confidence[beliefId]]
  {
    SortedSetMembers({beliefId}, StringLe);
    assert X.Cluster(c, signature)[0] in X.Cluster(c, signature);
    ProjectOne(beliefId, b => Lookup(c.confidence, b));
  }

  lemma PassIsAccepted(n: Notation, s: X.XState, x: ExecutiveEvent, time: real, tick: nat)
    requires x.GenerationStarted? && Clustered(s.clusters, x.signature, x.beliefId)
    ensures var r := X.OnGenerationStarted(n, s, x, time, tick);
            && |r.published| == 1 && r.published[0].OfExecutive? && r.published[0].x.GenerationCompleted?
            && r.published[0].x.accepted && r.published[0].x.groupId.Some? && r.published[0].x.opportunity.Some?
            && r.published[0].x.generationId == x.generationId
            && r.state.stores.generations == s.stores.generations + [X.Started(x, [x.beliefId], time)]
  {
    hide X.Cluster, X.Confidences, X.AggregateConfidence, By;
    ClusterOfOne(s.clusters, x.signature, x.beliefId);
  }

  lemma {:induction false} LastIsFound(generations: seq<X.Generation>, g: X.Generation)
    ensures X.FirstGeneration(generations + [g], g.id).Some?
  {
    if generations == [] {
      assert [] + [g] == [g];
    } else {
      assert (generations + [g])[1..] == generations[1..] + [g];
      LastIsFound(generations[1..], g);
    }
  }

  lemma StartedHasId(x: ExecutiveEvent, time: real)
    requires x.GenerationStarted?
    ensures X.Started(x, [x.beliefId], time).id == x.generationId
  {
  }

  lemma PassCompletes(v: Setting, p: Point, e: Event)
    requires Starting1(p) && HeadIs(p, e)
    ensures Completing1(Moved(v, p, e))
  {
    hide X.OnGenerationStarted, X.FirstGeneration, X.Started, Bare, By, P.Step, W.Step, G.Step, T.Step, M.Step, Publications;
    var x := e.body.x;
    StartedHasId(x, e.time);
    OnlyExecutiveAnswers(v, p.o, e, p.ticks);
    BareStays(v, p.o, e, p.ticks);
    PassIsAccepted(Text(v), p.o.executive, x, e.time, p.ticks);
    LastIsFound(p.o.executive.stores.generations, X.Started(x, [x.beliefId], e.time));
    assert p.queue[1..] == [];
  }

  predicate Proposes(p: Payload, plan: Id) {
    p.OfExecutive? && p.x.PlanProposed? && p.x.planId == plan && |p.x.actions| == 2
  }

  /** A plan with two actions is queued for the Governor. */
  predicate Proposed(p: Point, plan: Id) {
    !p.replaying && Bare(p.o) && |p.queue| == 3 && Quiet(p.queue[0]) && Quiet(p.queue[1]) && Proposes(p.queue[2], plan)
  }

  lemma PassBecomesAPlan(v: Setting, p: Point, e: Event) returns (plan: Id)
    requires Completing1(p) && HeadIs(p, e)
    ensures Proposed(Moved(v, p, e), plan)
  {
    hide X.FirstGeneration, X.Valued, By, P.Step, W.Step, G.Step, T.Step, M.Step, Publications;
    plan := Minted(p.ticks, Executive, [2]);
    OnlyExecutiveAnswers(v, p.o, e, p.ticks);
    BareStays(v, p.o, e, p.ticks);
    assert p.queue[1..] == [];
  }

  /** A run that has lost nothing and has a plan's proposal queued. */
  lemma APlanIsProposed(v: Setting) returns (moves: seq<Move>, plan: Id)
    ensures Legal(v, moves) && Untroubled(v, moves) && Proposed(Here(v, moves), plan)
  {
    hide Reached, Legal, Loses, Moved, Believed, Starting1, Completing1, Proposed, Publications, Successor;
    BirthIs(v);
    var e := Forward(v, [], Enter(SENSED, None));
    moves := [] + [Enter(SENSED, None)];
    e := Onward(v, moves);
    ObservationIsBelieved(v, e, 0);
    moves := moves + [Next];
    assert Believed(Here(v, moves));
    BelievedIsLive(Here(v, moves));
    e := Onward(v, moves);
    BeliefStartsAPass(v, Here(v, moves), e);
    moves := moves + [Next];
    StartingIsLive(Here(v, moves));
    e := Onward(v, moves);
    PassCompletes(v, Here(v, moves), e);
    moves := moves + [Next];
    CompletingIsLive(Here(v, moves));
    e := Onward(v, moves);
    plan := PassBecomesAPlan(v, Here(v, moves), e);
    moves := moves + [Next];
  }

  lemma BelievedIsLive(p: Point) requires Believed(p) ensures !p.replaying && p.queue != [] {}
  lemma StartingIsLive(p: Point) requires Starting1(p) ensures !p.replaying && p.queue != [] {}
  lemma CompletingIsLive(p: Point) requires Completing1(p) ensures !p.replaying && p.queue != [] {}

  /**
   The organism senses something, believes it, and proposes a plan; before the proposal is dispatched the process dies, or
   is stopped. What Memory promises of every plan is no longer so of this one: it has no prediction.
   */
  lemma FirstOutcomeCanFail(v: Setting) returns (moves: seq<Move>, plan: Id)
    ensures Legal(v, moves) && Loses(v, moves, NoLoss)
    ensures !F.FirstOutcomeRules(Here(v, Crash(v, moves)).o.memory, Log(Here(v, moves)), plan)
    ensures !F.FirstOutcomeRules(Here(v, Halt(v, moves)).o.memory, Log(Here(v, moves)), plan)
  {
    hide Here, Legal, Loses, Crash, Halt, F.FirstOutcomeRules, PL.Has, F.Items, Log;
    moves, plan := APlanIsProposed(v);
    ProposalIsAnItem(Here(v, moves), plan);
    F.CrashKeepsFirstOutcomeRulingIff(v, moves, plan);
    F.HaltKeepsFirstOutcomeRulingIff(v, moves, plan);
  }

  lemma ProposalIsAnItem(p: Point, plan: Id)
    requires Proposed(p, plan)
    ensures PL.Has(F.Items(p.queue, plan), PL.IsProposal) && !p.replaying && forall b <- p.queue :: !Lifecycle(b)
  {
    ProjectMember(p.queue, PlanLife.ItemOf(plan), 2);
    assert PL.IsProposal(PlanLife.Proposing);
  }

  // ---------------------------------------------------------------- from the plan to its outcome

  /** The plan's escalation and its prediction are queued. */
  predicate Escalating(p: Point, plan: Id) {
    && !p.replaying && Bare(p.o) && |p.queue| == 3 && Quiet(p.queue[0])
    && A.Creates(p.queue[1]) && p.queue[1].g.planId == plan && |p.queue[1].g.actions| == 2
    && p.queue[2].OfMemory? && p.queue[2].m.PredictionRecorded? && p.queue[2].m.planId == plan
  }

  lemma GovernorEscalates(v: G.Env, s: G.GState, e: Event, tick: nat, plan: Id)
    requires s.constitutions == [] && Proposes(e.body, plan)
    ensures var ps := G.Step(v, s, e, tick).published;
            |ps| == 2 && Quiet(ps[0]) && A.Creates(ps[1]) && ps[1].g.planId == plan && |ps[1].g.actions| == 2
  {
    hide By;
  }

  lemma MemoryPredicts(n: Notation, s: M.MState, e: Event, tick: nat, plan: Id)
    requires Proposes(e.body, plan)
    ensures var ps := M.Step(n, s, e, tick).published;
            |ps| == 1 && ps[0].OfMemory? && ps[0].m.PredictionRecorded? && ps[0].m.planId == plan
  {
    hide By;
  }

  lemma ProposalEscalates(v: Setting, p: Point, e: Event, plan: Id)
    requires !p.replaying && Bare(p.o) && |p.queue| == 1 && Proposes(p.queue[0], plan) && HeadIs(p, e)
    ensures Escalating(Moved(v, p, e), plan)
  {
    hide P.Step, W.Step, X.Step, G.Step, T.Step, M.Step;
    BareStays(v, p.o, e, p.ticks);
    SensesSilent(p.o.perception, p.o.worldModel, e);
    ExecutiveSilent(Text(v), p.o.executive, e, p.ticks);
    GovernorEscalates(v.governor, p.o.governor, e, p.ticks, plan);
    ExecutorWaits(Text(v), v.behaviour, p.o.executor, e, p.ticks);
    MemoryPredicts(Text(v), p.o.memory, e, p.ticks, plan);
    assert p.queue[1..] == [];
  }

  /** The escalation is open and the prediction pending; nothing is queued. */
  predicate Open(p: Point, plan: Id, id: Id) {
    && !p.replaying && Bare(p.o) && p.queue == [] && plan in p.o.memory.pending
    && id in p.o.governor.pendingEscalations && p.o.governor.pendingEscalations[id].planId == plan
    && |p.o.governor.pendingEscalations[id].actions| == 2
  }

  lemma EscalationOpens(v: Setting, o: OState, e: Event, tick: nat)
    requires A.Creates(e.body) && Bare(o)
    ensures Publications(v, o, e, tick) == [] && Bare(Successor(v, o, e, tick))
    ensures var g := Successor(v, o, e, tick).governor;
            && e.body.g.escalationId in g.pendingEscalations
            && g.pendingEscalations[e.body.g.escalationId].planId == e.body.g.planId
            && g.pendingEscalations[e.body.g.escalationId].actions == e.body.g.actions
  {
    hide X.OnKernelStarted, X.OnWorldModel, X.OnOwn, X.OnOutcomeRecorded, G.OnPlanProposed, G.OnResearchSpendRequested,
         G.OnRevisionCompleted, G.OnAmendmentProposed, G.OnAmendmentApproved, G.OnAmendmentRejected, G.OnEscalationResolved,
         T.OnApprovalGranted, T.OnOwn, M.OnOwn, M.OnExecutive, M.OnAction, By;
    BareStays(v, o, e, tick);
  }

  lemma PredictionIsNoted(v: Setting, o: OState, e: Event, tick: nat)
    requires e.body.OfMemory? && e.body.m.PredictionRecorded? && Bare(o)
    ensures Publications(v, o, e, tick) == [] && Bare(Successor(v, o, e, tick))
    ensures e.body.m.planId in Successor(v, o, e, tick).memory.pending && Successor(v, o, e, tick).governor == o.governor
  {
    hide X.OnKernelStarted, X.OnWorldModel, X.OnOwn, X.OnGovernor, G.OnPlanProposed, G.OnResearchSpendRequested,
         G.OnGovernance, T.OnApprovalGranted, T.OnOwn, M.OnExecutive, M.OnAction, M.Learn, M.OnPredictionResolved,
         M.OnOutcomeRecorded, By;
    BareStays(v, o, e, tick);
  }

  /** One quiet delivery. */
  predicate FacingQuiet(p: Point) {
    !p.replaying && p.queue != [] && Quiet(p.queue[0])
  }

  /** The head of the queue is gone, and nothing but the queue has changed that the scenarios look at. */
  predicate QuietlyTo(p: Point, p': Point) {
    && p.queue != [] && p'.queue == p.queue[1..] && !p'.replaying && p'.o.memory.pending == p.o.memory.pending
    && p'.o.governor == p.o.governor && p'.o.executor == p.o.executor
  }

  lemma QuietMove(v: Setting, moves: seq<Move>)
    requires Legal(v, moves) && Untroubled(v, moves) && FacingQuiet(Here(v, moves))
    ensures Legal(v, moves + [Next]) && Untroubled(v, moves + [Next]) && QuietlyTo(Here(v, moves), Here(v, moves + [Next]))
  {
    hide Reached, Legal, Loses, Publications, Successor, Quiet;
    var e := Onward(v, moves);
    NobodyAnswers(v, Here(v, moves).o, e, Here(v, moves).ticks);
  }

  /** A run that has lost nothing and waits for the owner to answer. */
  lemma APlanIsEscalated(v: Setting) returns (moves: seq<Move>, plan: Id, id: Id)
    ensures Legal(v, moves) && Untroubled(v, moves) && Open(Here(v, moves), plan, id)
  {
    hide Here, Legal, Loses, Publications, Successor, Quiet;
    moves, plan := APlanIsProposed(v);
    QuietMove(v, moves);
    moves := moves + [Next];
    QuietMove(v, moves);
    moves := moves + [Next];
    var e := Onward(v, moves);
    ProposalEscalates(v, Here(v, moves), e, plan);
    moves := moves + [Next];
    QuietMove(v, moves);
    moves := moves + [Next];
    id := Here(v, moves).queue[0].g.escalationId;
    e := Onward(v, moves);
    EscalationOpens(v, Here(v, moves).o, e, Here(v, moves).ticks);
    moves := moves + [Next];
    e := Onward(v, moves);
    PredictionIsNoted(v, Here(v, moves).o, e, Here(v, moves).ticks);
    moves := moves + [Next];
  }

  /** The owner has approved: the grant is queued. */
  predicate Granting(p: Point, plan: Id) {
    && !p.replaying && Bare(p.o) && plan in p.o.memory.pending && |p.queue| == 1
    && p.queue[0].OfGovernor? && p.queue[0].g.ApprovalGranted? && p.queue[0].g.planId == plan && |p.queue[0].g.actions| == 2
  }

  lemma GovernorGrants(v: G.Env, s: G.GState, e: Event, tick: nat, plan: Id, id: Id)
    requires e.body == OfGovernor(EscalationResolved(id, plan, G.APPROVED, "owner", ""))
    requires id in s.pendingEscalations && s.pendingEscalations[id].planId == plan
    ensures var ps := G.Step(v, s, e, tick).published;
            |ps| == 1 && ps[0].OfGovernor? && ps[0].g.ApprovalGranted? && ps[0].g.planId == plan
            && ps[0].g.actions == s.pendingEscalations[id].actions
  {
    hide By;
  }

  lemma ExecutorWaits(n: Notation, b: T.Behaviour, s: T.TState, e: Event, tick: nat)
    requires e.body.OfExecutive? || (e.body.OfGovernor? && !e.body.g.ApprovalGranted?)
    ensures T.Step(n, b, s, e, tick).published == []
  {
  }

  lemma AnswerGrants(v: Setting, o: OState, e: Event, tick: nat, plan: Id, id: Id)
    requires e.body == OfGovernor(EscalationResolved(id, plan, G.APPROVED, "owner", "")) && Bare(o)
    requires id in o.governor.pendingEscalations && o.governor.pendingEscalations[id].planId == plan
    ensures var ps := Publications(v, o, e, tick);
            |ps| == 1 && ps[0].OfGovernor? && ps[0].g.ApprovalGranted? && ps[0].g.planId == plan
            && ps[0].g.actions == o.governor.pendingEscalations[id].actions
    ensures Bare(Successor(v, o, e, tick)) && Successor(v, o, e, tick).memory == o.memory
  {
    hide P.Step, W.Step, X.Step, G.Step, T.Step, M.Step;
    BareStays(v, o, e, tick);
    SensesSilent(o.perception, o.worldModel, e);
    ExecutiveSilent(Text(v), o.executive, e, tick);
    GovernorGrants(v.governor, o.governor, e, tick, plan, id);
    ExecutorWaits(Text(v), v.behaviour, o.executor, e, tick);
    MemorySilent(Text(v), o.memory, e, tick);
  }

  lemma APlanIsGranted(v: Setting) returns (moves: seq<Move>, plan: Id)
    ensures Legal(v, moves) && Untroubled(v, moves) && Granting(Here(v, moves), plan)
  {
    hide Here, Legal, Loses, Publications, Successor;
    var id;
    moves, plan, id := APlanIsEscalated(v);
    var answer := OfGovernor(EscalationResolved(id, plan, G.APPROVED, "owner", ""));
    var e := Forward(v, moves, Enter(answer, None));
    moves := moves + [Enter(answer, None)];
    assert Here(v, moves).queue == [answer];
    e := Onward(v, moves);
    AnswerGrants(v, Here(v, moves).o, e, Here(v, moves).ticks, plan, id);
    moves := moves + [Next];
  }

  /** An action that fails for want of a tool. */
  predicate Fails(ps: seq<Payload>, plan: Id) {
    && |ps| == 3 && Quiet(ps[0]) && Quiet(ps[1]) && ps[2].OfExecutor? && ps[2].t.ActionFailed? && ps[2].t.planId == plan
  }

  lemma ActionFails(n: Notation, b: T.Behaviour, e: T.Equipment, plan: Id, action: string, i: nat, tick: nat)
    requires e.tools == {}
    ensures Fails(T.ExecuteAction(n, b, e, plan, action, i, tick).1, plan)
  {
    hide T.ActionType, T.MaxAttempts, T.LastAttempt, By;
  }

  lemma GrantFails(v: Setting, o: OState, e: Event, tick: nat)
    requires Bare(o) && e.body.OfGovernor? && e.body.g.ApprovalGranted? && |e.body.g.actions| == 2
    ensures var ps := Publications(v, o, e, tick);
            |ps| == 6 && Fails(ps[..3], e.body.g.planId) && Fails(ps[3..], e.body.g.planId)
    ensures Bare(Successor(v, o, e, tick)) && Successor(v, o, e, tick).memory == o.memory
  {
    hide T.ExecuteAction, By, Fails, P.Step, W.Step, X.Step, G.Step, M.Step;
    var g, n, b, q := e.body.g, Text(v), v.behaviour, o.executor.equipment;
    BareStays(v, o, e, tick);
    ActionFails(n, b, q, g.planId, g.actions[0], 0, tick);
    ActionFails(n, b, q, g.planId, g.actions[1], 1, tick);
    var one, two := T.ExecuteAction(n, b, q, g.planId, g.actions[0], 0, tick).1, T.ExecuteAction(n, b, q, g.planId, g.actions[1], 1, tick).1;
    TwoActions(n, b, q, g.planId, g.actions, tick);
    OnlyExecutorAnswers(v, o, e, tick);
    FailsIsThree(one, g.planId);
    FailsIsThree(two, g.planId);
    assert (one + two)[..3] == one && (one + two)[3..] == two;
  }

  lemma FailsIsThree(ps: seq<Payload>, plan: Id) requires Fails(ps, plan) ensures |ps| == 3 {}

  lemma TwoActions(n: Notation, b: T.Behaviour, q: T.Equipment, plan: Id, actions: seq<string>, tick: nat)
    requires |actions| == 2
    ensures T.ExecuteFrom(n, b, q, plan, actions, 0, tick).1
         == T.ExecuteAction(n, b, q, plan, actions[0], 0, tick).1 + T.ExecuteAction(n, b, q, plan, actions[1], 1, tick).1
  {
    hide T.ExecuteAction, By;
    assert T.ExecuteFrom(n, b, q, plan, actions, 2, tick).1 == [];
    assert T.ExecuteFrom(n, b, q, plan, actions, 1, tick).1 == T.ExecuteAction(n, b, q, plan, actions[1], 1, tick).1 + [];
  }

  lemma OnlyExecutorAnswers(v: Setting, o: OState, e: Event, tick: nat)
    requires e.body.OfGovernor? && e.body.g.ApprovalGranted?
    ensures Publications(v, o, e, tick) == T.OnApprovalGranted(Text(v), v.behaviour, o.executor, e.body.g, tick).published
    ensures Successor(v, o, e, tick).memory == o.memory && Successor(v, o, e, tick).executor.pendingSandbox == o.executor.pendingSandbox
  {
    hide T.ExecuteFrom, T.OnOwn, X.OnKernelStarted, X.OnWorldModel, X.OnOwn, X.OnOutcomeRecorded, G.OnPlanProposed,
         G.OnResearchSpendRequested, G.OnRevisionCompleted, M.OnOwn, M.OnExecutive, M.OnAction, By;
  }

  /** The outcome of a failed action, and its ledger entry. */
  predicate Outcome(ps: seq<Payload>, plan: Id) {
    && |ps| == 2 && ps[0].OfMemory? && ps[0].m.OutcomeRecorded? && ps[0].m.planId == plan && Quiet(ps[1])
  }

  lemma FailureIsRecorded(v: Setting, o: OState, e: Event, tick: nat)
    requires e.body.OfExecutor? && e.body.t.ActionFailed?
    ensures Outcome(Publications(v, o, e, tick), e.body.t.planId)
    ensures Successor(v, o, e, tick).memory.pending == o.memory.pending
  {
    hide X.OnKernelStarted, X.OnWorldModel, X.OnOwn, X.OnGovernor, X.OnOutcomeRecorded, G.OnPlanProposed,
         G.OnResearchSpendRequested, G.OnGovernance, G.OnRevisionCompleted, T.OnApprovalGranted, T.OnOwn, M.OnOwn,
         M.OnExecutive, By;
  }

  lemma OutcomeResolves(v: Setting, o: OState, e: Event, tick: nat)
    requires e.body.OfMemory? && e.body.m.OutcomeRecorded? && e.body.m.planId in o.memory.pending
    ensures var ps := Publications(v, o, e, tick); |ps| == 1 && L.Resolves(ps[0])
  {
    hide X.OnKernelStarted, X.OnWorldModel, X.OnOwn, X.OnGovernor, G.OnPlanProposed, G.OnResearchSpendRequested,
         G.OnGovernance, T.OnApprovalGranted, T.OnOwn, M.OnExecutive, M.OnAction, M.Learn, M.OnPredictionResolved,
         X.Situation, By;
  }

  /** Three deliveries: an action announced twice over, then its failure, recorded at the back of the queue. */
  lemma AnActionIsRecorded(v: Setting, moves: seq<Move>, plan: Id) returns (after: seq<Move>)
    requires Legal(v, moves) && Untroubled(v, moves)
    requires var p := Here(v, moves); !p.replaying && plan in p.o.memory.pending && |p.queue| >= 3 && Fails(p.queue[..3], plan)
    ensures Legal(v, after) && Untroubled(v, after)
    ensures var p, p' := Here(v, moves), Here(v, after);
            && !p'.replaying && plan in p'.o.memory.pending && |p'.queue| == |p.queue| - 1
            && p'.queue[..|p.queue| - 3] == p.queue[3..] && Outcome(p'.queue[|p.queue| - 3..], plan)
  {
    hide Here, Legal, Loses, Publications, Successor, Quiet, Outcome;
    var q := Here(v, moves).queue;
    assert q[..3][0] == q[0] && q[..3][1] == q[1] && q[..3][2] == q[2];
    QuietMove(v, moves);
    after := moves + [Next];
    QuietMove(v, after);
    after := after + [Next];
    assert Here(v, after).queue == q[2..];
    var e := Onward(v, after);
    var ps := Publications(v, Here(v, after).o, e, Here(v, after).ticks);
    FailureIsRecorded(v, Here(v, after).o, e, Here(v, after).ticks);
    OutcomeIsTwo(ps, plan);
    after := after + [Next];
    assert Here(v, after).queue == q[3..] + ps;
    assert (q[3..] + ps)[..|q| - 3] == q[3..] && (q[3..] + ps)[|q| - 3..] == ps;
  }

  lemma OutcomeIsTwo(ps: seq<Payload>, plan: Id) requires Outcome(ps, plan) ensures |ps| == 2 {}

  /** A run that has lost nothing and has the outcome of a plan's action at the head of its queue. */
  lemma AnOutcomeIsDue(v: Setting) returns (moves: seq<Move>, plan: Id)
    ensures Legal(v, moves) && Untroubled(v, moves)
    ensures var p := Here(v, moves); !p.replaying && plan in p.o.memory.pending && N.OutcomeIsNext(p, plan)
  {
    hide Here, Legal, Loses, Publications, Successor, Quiet, Fails;
    moves, plan := APlanIsGranted(v);
    var e := Onward(v, moves);
    GrantFails(v, Here(v, moves).o, e, Here(v, moves).ticks);
    var ps := Publications(v, Here(v, moves).o, e, Here(v, moves).ticks);
    moves := moves + [Next];
    assert Here(v, moves).queue == ps;
    moves := AnActionIsRecorded(v, moves, plan);
    var q := Here(v, moves).queue;
    assert q[..3] == ps[3..];
    moves := AnActionIsRecorded(v, moves, plan);
    assert Here(v, moves).queue[..2] == q[3..];
    assert q[3..][0] == Here(v, moves).queue[0];
  }

  /** A run that has lost nothing and has a resolution queued. */
  lemma APredictionIsResolved(v: Setting) returns (moves: seq<Move>)
    ensures Legal(v, moves) && Loses(v, moves, NoLoss) && !Here(v, moves).replaying
    ensures exists p <- Here(v, moves).queue :: L.Resolves(p)
    ensures N.HasResolved(Here(v, moves))
  {
    hide Here, Legal, Loses, Publications, Successor;
    var plan;
    moves, plan := AnOutcomeIsDue(v);
    var before := moves;
    var e := Onward(v, moves);
    OutcomeResolves(v, Here(v, moves).o, e, Here(v, moves).ticks);
    var r := Publications(v, Here(v, moves).o, e, Here(v, moves).ticks);
    var rest := Here(v, moves).queue[1..];
    moves := moves + [Next];
    assert Here(v, moves).queue == rest + r && r[0] in rest + r;
    N.DueOutcomeResolves(v, before, plan);
  }

  /** The situation the plan was proposed for is resolved; the process dies; its successor has never heard of it. */
  lemma ResolvedCanBeForgotten(v: Setting) returns (moves: seq<Move>)
    ensures Legal(v, moves) && Loses(v, moves, NoLoss)
    ensures N.HasResolved(Here(v, moves)) && !N.HasResolved(Here(v, Crash(v, moves)))
  {
    hide Here, Legal, Loses, Crash;
    moves := APredictionIsResolved(v);
    N.RestartForgets(v, moves);
  }

  /**
   The owner approves the plan, its first action fails, its outcome resolves the prediction; before the resolution is
   dispatched the process dies. Its successor has a resolved prediction, and no iteration was ever started for it.
   */
  lemma LearningCanFail(v: Setting) returns (moves: seq<Move>)
    ensures Legal(v, moves) && Loses(v, moves, NoLoss) && !L.InStep(Here(v, Crash(v, moves)).o.memory)
  {
    hide Here, Legal, Loses, Crash, L.InStep, Count, L.Trace;
    moves := APredictionIsResolved(v);
    ResolutionCounts(Here(v, moves).queue);
    L.CrashKeepsLearningInStepIff(v, moves);
  }

  lemma ResolutionCounts(q: seq<Payload>)
    requires exists p <- q :: L.Resolves(p)
    ensures Count(q, L.Resolves) > 0
  {
    FilterMembers(q, L.Resolves);
    var p :| p in q && L.Resolves(p);
    assert p in Filter(q, L.Resolves);
  }

  // ---------------------------------------------------------------- a sandbox entered and never left

  /** The tool the plan's first action asks for. */
  function Equipped(o: OState, tool: string): OState {
    o.(executor := o.executor.(equipment := o.executor.equipment.(tools := {tool}, required := {})))
  }

  lemma EquippingIsAllowed(o: OState, tool: string)
    ensures Reconfigures(o, Equipped(o, tool))
  {
  }

  predicate Announced(ps: seq<Payload>) {
    && |ps| >= 3 && Quiet(ps[0]) && Quiet(ps[1])
    && ps[2].OfExecutor? && ps[2].t.SandboxStarted?
  }

  lemma ActionIsSandboxed(n: Notation, b: T.Behaviour, e: T.Equipment, plan: Id, action: string, i: nat, tick: nat)
    requires T.Obstacle(e, T.ActionType(action)) == None
    ensures Announced(T.ExecuteAction(n, b, e, plan, action, i, tick).1)
  {
    hide T.ActionType, T.MaxAttempts, T.LastAttempt, T.Obstacle, T.Retry, T.Conclude, By;
    var a := T.ActionOf(e, plan, action, i, tick);
    AttemptsStart(a, (k: nat) => b(tick, i, k));
  }

  lemma AttemptsStart(a: T.Action, run: nat -> T.ToolOutcome)
    ensures var ps := T.Attempts(a, run, 1); |ps| >= 1 && ps[0].OfExecutor? && ps[0].t.SandboxStarted?
  {
    hide T.Retry, T.Conclude, T.ExecutionId, By;
  }

  lemma GrantIsSandboxed(v: Setting, o: OState, e: Event, tick: nat)
    requires e.body.OfGovernor? && e.body.g.ApprovalGranted? && |e.body.g.actions| == 2
    requires T.Obstacle(o.executor.equipment, T.ActionType(e.body.g.actions[0])) == None
    ensures Announced(Publications(v, o, e, tick))
  {
    hide Publications, Successor, T.ExecuteAction, By, Quiet, T.Obstacle, T.ActionType;
    var g, n, b, q := e.body.g, Text(v), v.behaviour, o.executor.equipment;
    ActionIsSandboxed(n, b, q, g.planId, g.actions[0], 0, tick);
    TwoActions(n, b, q, g.planId, g.actions, tick);
    OnlyExecutorAnswers(v, o, e, tick);
  }

  lemma SandboxOpens(v: Setting, o: OState, e: Event, tick: nat)
    requires e.body.OfExecutor? && e.body.t.SandboxStarted?
    ensures e.body.t.executionId in Successor(v, o, e, tick).executor.pendingSandbox
    ensures Publications(v, o, e, tick) == []
  {
    hide X.OnKernelStarted, X.OnWorldModel, X.OnOwn, X.OnGovernor, X.OnOutcomeRecorded, G.OnPlanProposed,
         G.OnResearchSpendRequested, G.OnGovernance, G.OnRevisionCompleted, T.OnApprovalGranted, M.OnOwn, M.OnExecutive, By;
  }

  lemma NoneIsObstructed(o: OState, tool: string)
    requires o.executor.equipment.credentials == map[]
    ensures T.Obstacle(Equipped(o, tool).executor.equipment, tool) == None
  {
  }

  /** A run that has lost nothing, with the grant queued and the tool in place. */
  lemma AToolIsReady(v: Setting) returns (moves: seq<Move>)
    ensures Legal(v, moves) && Untroubled(v, moves)
    ensures var p := Here(v, moves);
            && !p.replaying && |p.queue| == 1 && p.queue[0].OfGovernor? && p.queue[0].g.ApprovalGranted? && |p.queue[0].g.actions| == 2
            && T.Obstacle(p.o.executor.equipment, T.ActionType(p.queue[0].g.actions[0])) == None
  {
    hide Here, Legal, Loses, Publications, Successor, T.Obstacle, T.ActionType, Reconfigures, Equipped;
    var plan;
    moves, plan := APlanIsGranted(v);
    var p := Here(v, moves);
    var tool := T.ActionType(p.queue[0].g.actions[0]);
    EquippingIsAllowed(p.o, tool);
    NoneIsObstructed(p.o, tool);
    var e := Forward(v, moves, Configure(Equipped(p.o, tool)));
    moves := moves + [Configure(Equipped(p.o, tool))];
  }

  /** A run that has lost nothing, and has an execution open with its completion still queued. */
  lemma ASandboxIsOpen(v: Setting) returns (moves: seq<Move>)
    ensures Legal(v, moves) && Untroubled(v, moves) && !Here(v, moves).replaying
    ensures Here(v, moves).o.executor.pendingSandbox != map[]
    ensures forall p <- Here(v, moves).queue :: !Lifecycle(p)
  {
    hide Here, Legal, Loses, Publications, Successor, Quiet, Announced, T.Obstacle, T.ActionType;
    moves := AToolIsReady(v);
    var e := Onward(v, moves);
    GrantIsSandboxed(v, Here(v, moves).o, e, Here(v, moves).ticks);
    var ps := Publications(v, Here(v, moves).o, e, Here(v, moves).ticks);
    NothingOfTheKernels(v, Here(v, moves).o, e, Here(v, moves).ticks);
    moves := moves + [Next];
    assert Here(v, moves).queue == ps;
    AnnouncedIs(ps);
    QuietMove(v, moves);
    moves := moves + [Next];
    QuietMove(v, moves);
    moves := moves + [Next];
    assert Here(v, moves).queue == ps[2..];
    e := Onward(v, moves);
    SandboxOpens(v, Here(v, moves).o, e, Here(v, moves).ticks);
    moves := moves + [Next];
    assert Here(v, moves).queue == ps[3..];
    assert e.body.t.executionId in Here(v, moves).o.executor.pendingSandbox;
  }

  lemma AnnouncedIs(ps: seq<Payload>)
    requires Announced(ps)
    ensures |ps| >= 3 && Quiet(ps[0]) && Quiet(ps[1]) && ps[2].OfExecutor? && ps[2].t.SandboxStarted?
  {
  }

  lemma NothingOfTheKernels(v: Setting, o: OState, e: Event, tick: nat)
    ensures forall p <- Publications(v, o, e, tick) :: !Lifecycle(p)
  {
    hide P.Step, W.Step, X.Step, G.Step, T.Step, M.Step;
    EachPublishesItsOwn(v, o, e, tick);
  }

  /**
   A tool is registered, the owner approves the plan, its first action enters a sandbox and leaves it; the process is stopped
   after the entry has been recorded and before the exit is. The execution stays pending for good.
   */
  lemma SandboxesCanFail(v: Setting) returns (moves: seq<Move>)
    ensures Legal(v, moves) && Loses(v, moves, NoLoss) && !S.Settled(Here(v, Halt(v, moves)).o.executor)
  {
    hide Here, Legal, Loses, Halt;
    moves := ASandboxIsOpen(v);
    HaltIs(v, moves);
  }

  /**
   Or the process dies while the first action is carried out, with the entry logged and the exit not: the successor has
   the execution pending for good.
   */
  lemma TornSandboxesCanFail(v: Setting) returns (moves: seq<Move>)
    ensures Legal(v, moves) && Loses(v, moves, NoDrops) && !S.Settled(Here(v, Crash(v, moves)).o.executor)
  {
    hide Here, Legal, Loses, Publications, Successor, Crash, S.Settled, S.NoneOpen, Announced, T.Obstacle, T.ActionType;
    moves := AToolIsReady(v);
    var p := Here(v, moves);
    LossesCompare(v, moves);
    OneMore(v, moves, Tear(3));
    var e: Event :| HeadIs(p, e) && Here(v, moves + [Tear(3)]) == Stepped(v, p, Tear(3), e);
    assert Affords(NoDrops, p, Tear(3));
    GrantIsSandboxed(v, p.o, e, p.ticks);
    var ps := Publications(v, p.o, e, p.ticks);
    AnnouncedIs(ps);
    moves := moves + [Tear(3)];
    var log := Log(p) + ps[..3];
    assert Log(Here(v, moves)) == log;
    assert log[|log| - 1] == ps[2];
    CrashIs(v, moves);
    S.RunsStayExecuting(v, moves);
    S.SandboxesAreSettledIff(v, Crash(v, moves));
    assert Log(Here(v, Crash(v, moves))) == log;
    EndsOpen(Here(v, moves), log);
  }

  /** A log that ends with the start of an execution leaves it open. */
  lemma EndsOpen(p: Point, log: seq<Payload>)
    requires S.Executing(p) && log == Log(p) && log != []
    requires log[|log| - 1].OfExecutor? && log[|log| - 1].t.SandboxStarted?
    ensures !S.NoneOpen(log)
  {
    hide Project;
    var n := |log| - 1;
    var id := log[n].t.executionId;
    var f := S.ExecutionEvent(id);
    assert log == log[..n] + [log[n]];
    ProjectSnoc(log[..n], log[n], f);
    var all := Project(log, f);
    assert S.Both(all, id, p.ticks, false);
    assert all[|all| - 1] == false;
    assert all == [false];
  }

  // ---------------------------------------------------------------- recovered views that differ

  /** An amendment, proposed from outside. */
  const AMENDMENT := OfGovernor(AmendmentProposed(Given("a"), Given("c"), None, 1, [], ""))

  lemma AmendmentIsRecorded(v: Setting, o: OState, e: Event, tick: nat)
    requires e.body == AMENDMENT
    ensures |Successor(v, o, e, tick).governor.amendments| == |o.governor.amendments| + 1
  {
    hide P.Step, W.Step, X.Step, T.Step, M.Step, By;
  }

  lemma AmendmentIsEntered(v: Setting) returns (moves: seq<Move>)
    ensures Legal(v, moves) && Untroubled(v, moves)
    ensures Here(v, moves) == Entered(Birth(), AMENDMENT)
  {
    hide Reached, Legal, Loses, Publications, Successor;
    BirthIs(v);
    moves := [] + [Enter(AMENDMENT, None)];
    var e := Forward(v, [], Enter(AMENDMENT, None));
  }

  /**
   The organism is stopped with a proposed amendment queued: it goes down without having heard of it; its successor, which
   replays the log, has it on record.
   */
  lemma StoppingMakesViewsDiffer(v: Setting) returns (moves: seq<Move>)
    ensures Legal(v, moves) && Loses(v, moves, NoLoss)
    ensures Here(v, Halt(v, moves)).o.governor.amendments == []
    ensures |Here(v, Crash(v, moves)).o.governor.amendments| == 1
  {
    hide Here, Legal, Loses, Successor, Publications;
    moves := AmendmentIsEntered(v);
    assert Here(v, moves).queue == [AMENDMENT] && Log(Here(v, moves)) == [AMENDMENT];
    HaltIs(v, moves);
    CrashIs(v, moves);
    assert Crash(v, moves) == moves + [Reboot] + [Hear];
    OneMore(v, moves, Reboot);
    OneMore(v, moves + [Reboot], Hear);
    var p := Here(v, moves + [Reboot]);
    var e: Event :| e.body == AMENDMENT && Here(v, Crash(v, moves)) == Stepped(v, p, Hear, e);
    AmendmentIsRecorded(v, p.o, e, p.ticks);
  }

  /** A snapshot taken with the amendment queued: the tail of the log after it is empty, and the amendment is lost. */
  lemma EarlySnapshotMakesViewsDiffer(v: Setting, tick: nat) returns (moves: seq<Move>)
    ensures Legal(v, moves) && Loses(v, moves, NoLoss)
    ensures var log := Reached(v, moves).m.log;
            && |R.Recovered(v, log, R.SnapshotAt(v, moves), tick).amendments| == 0
            && |R.Recovered(v, log, None, tick).amendments| == 1
  {
    hide Legal, Loses, Successor, Publications, Reached, R.Capture, R.Restore;
    moves := AmendmentIsEntered(v);
    var l := Reached(v, moves);
    RunsAreOrderly(v, moves);
    assert At(l) == Entered(Birth(), AMENDMENT);
    OneEntry(l);
    NothingCaptured();
    AmendmentIsRecorded(v, Organism.Initial(), l.m.log[0], tick);
    AfterTheSnapshot(v, l.m.log, R.Capture(Organism.Initial()), tick);
    ReplayingOne(v, l.m.log, tick);
  }

  lemma OneEntry(l: Life)
    requires Orderly(l) && At(l).past == [] && At(l).queue == [AMENDMENT]
    ensures |l.m.log| == 1 && l.m.log[0].body == AMENDMENT
  {
    assert |Past(l.m)| == 0 && |Queue(l.m)| == 1;
    assert Queue(l.m)[0].body == At(l).queue[0];
  }

  lemma NothingCaptured()
    ensures R.Restore(R.Capture(Organism.Initial())).governor.amendments == []
  {
  }

  lemma AfterTheSnapshot(v: Setting, log: seq<Event>, snapshot: R.Snapshot, tick: nat)
    requires |log| == 1
    ensures R.Recovered(v, log, Some((1, snapshot)), tick).amendments == R.Restore(snapshot).governor.amendments
  {
    hide Successor, Publications, R.Capture, R.Restore;
    assert log[1..] == [];
  }

  lemma ReplayingOne(v: Setting, log: seq<Event>, tick: nat)
    requires |log| == 1
    ensures R.Recovered(v, log, None, tick).amendments == Successor(v, Organism.Initial(), log[0], tick).governor.amendments
  {
    hide Successor, Publications, R.Capture, R.Restore;
    assert log[0..] == log == [log[0]];
    FoldOne(v, Organism.Initial(), log[0], tick);
  }

  /** The amendment published before `start()`: recorded then, and once more by the replay `start()` begins with. */
  lemma EarlyPublishMakesViewsDiffer(v: Setting)
    ensures var k := R.Called(v, [K.DoPublish(AMENDMENT, None)]);
            && |Replay(R.Recoverable(v), k).m.state.governor.amendments| == 2
            && |R.Reborn(v, k.m.log, None, k.m.ticks).m.state.governor.amendments| == 1
  {
    hide Successor, Publications, R.Capture, R.Restore, Ranked, Drain;
    var w := R.Recoverable(v);
    var k0 := Boot<OState, R.Snapshot>([], None, Organism.Initial(), 0);
    K.FirstRun(w, Organism.Initial(), K.DoPublish(AMENDMENT, None));
    var k1 := KernelModel.Enter(w, k0, AMENDMENT, None);
    var e := k1.m.log[0];
    assert k1.m.log == [e] && e.body == AMENDMENT;
    var k := Publish(w, k0, AMENDMENT, None);
    OneDelivery(v, k1, e);
    assert k == Drain(w, k1);
    AmendmentIsRecorded(v, Organism.Initial(), e, 0);
    AmendmentIsRecorded(v, k.m.state, e, k.m.ticks);
    AmendmentIsRecorded(v, Organism.Initial(), e, k.m.ticks);
    FoldOne(v, k.m.state, e, k.m.ticks);
    FoldOne(v, Organism.Initial(), e, k.m.ticks);
    assert k.m.log[0..] == [e];
  }

  lemma FoldOne(v: Setting, o: OState, e: Event, tick: nat)
    ensures Fold(R.Recoverable(v), o, [e], tick) == Successor(v, o, e, tick)
  {
    hide Successor, Publications, R.Capture, R.Restore;
    assert [e][1..] == [];
  }

  lemma OneDelivery(v: Setting, k: KState<OState, R.Snapshot>, e: Event)
    requires WellFormed(k.m) && k.m.log == [e] && k.m.head == 0 && e.body == AMENDMENT
    requires !k.started && !k.stopping && !k.replayed && k.saved == None
    ensures var r := Drain(R.Recoverable(v), k);
            r.m.log == [e] && r.m.state == Successor(v, k.m.state, e, k.m.ticks) && !r.started && !r.replayed && r.saved == None
  {
    hide Ranked, Successor, R.Capture, R.Restore, Deliver, React, Drain, Publications;
    var w := R.Recoverable(v);
    AmendmentIsQuiet(v, k.m.state, e, k.m.ticks);
    ReactionIs(v, k.m);
    DeliverShape(w, k.m);
    ReactionBodies(w, k.m);
    ProcessShape(w, k);
    var k' := Process(w, k);
    assert k'.m.log == [e] && k'.m.head == 1;
    DrainOnce(w, k);
  }

  lemma ReactionIs(v: Setting, m: Machine<OState>)
    requires m.head < |m.log|
    ensures React(R.Recoverable(v), m) == Reaction(Successor(v, m.state, m.log[m.head], m.ticks), Publications(v, m.state, m.log[m.head], m.ticks))
  {
    hide Successor, Publications, R.Capture, R.Restore;
  }

  lemma DrainOnce(w: Wiring<OState, R.Snapshot>, k: KState<OState, R.Snapshot>)
    requires Ranked(w) && WellFormed(k.m) && Busy(k) && !Busy(Process(w, k))
    ensures WellFormed(Process(w, k).m) && Drain(w, k) == Process(w, k)
  {
    hide Ranked, Process;
    ProcessShape(w, k);
    ProcessLowersMeasure(w, k);
  }

  lemma AmendmentIsQuiet(v: Setting, o: OState, e: Event, tick: nat)
    requires e.body == AMENDMENT
    ensures Publications(v, o, e, tick) == []
  {
    hide Publications, Successor;
    LowestIsUnanswered(v, o, e, tick);
  }

  /** On the organism with its own snapshots, an event published after the start and before the stop is lost to it. */
  lemma OrganismLosesWhatWasJustPublished(v: Setting, body: Payload, supplied: Option<Correlation>)
    requires !Lifecycle(body)
    ensures var k := R.Called(v, [K.DoStart, K.DoPublish(body, supplied), K.DoStop]);
            |k.lost| == 1 && k.lost[0].body == body && k.lost[0] in k.m.log
  {
    hide K.Run, Ranked, Successor, Publications, R.Capture, R.Restore;
    K.StoppingLosesWhatWasJustPublished(R.Recoverable(v), Organism.Initial(), body, supplied);
  }
}
