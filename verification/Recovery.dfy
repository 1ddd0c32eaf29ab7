/** A snapshot taken with nothing queued, plus the tail of the log behind it, rebuilds what the organism holds. */
module Recovery {
  // The pending maps come back from the append-only logs, and the tail brings both to the same place. Ids minted
  // by handlers, clocks and tools may all differ in the replay.

  import opened Prelude
  import opened Ordering
  import opened Events
  import opened Rules
  import opened KernelModel
  import opened Organism
  import opened Runs
  import F = FirstOutcome
  import O = Openings
  import PL = PlanLife
  import PlanLog
  import K = KernelTheorems
  import P = PerceptionModel
  import W = WorldModelModel
  import X = ExecutiveModel
  import G = GovernorModel
  import GT = GovernorTheorems
  import T = ExecutorModel
  import TT = ExecutorTheorems
  import M = MemoryModel

  // ---------------------------------------------------------------- what is compared

  predicate SameGovernor(s: G.GState, t: G.GState) {
    && s.amendments == t.amendments && s.pendingAmendments == t.pendingAmendments
    && s.escalations == t.escalations && s.pendingEscalations == t.pendingEscalations
    && s.playbooks == t.playbooks && s.antiPatterns == t.antiPatterns
  }

  predicate SameExecutor(s: T.TState, t: T.TState) {
    && s.sandbox == t.sandbox && s.pendingSandbox == t.pendingSandbox && s.retries == t.retries && s.attempts == t.attempts
    && s.equipment.credentials == t.equipment.credentials
  }

  /** Everything but what is recorded under ids the handlers mint. */
  predicate SameMemory(s: M.MState, t: M.MState) {
    t == s.(outcomes := t.outcomes, episodes := t.episodes, entries := t.entries)
  }

  predicate SameView(o: OState, p: OState) {
    && SameGovernor(o.governor, p.governor) && SameExecutor(o.executor, p.executor) && SameMemory(o.memory, p.memory)
    && o.worldModel.reliabilities == p.worldModel.reliabilities
  }

  // ---------------------------------------------------------------- a delivery treats equal views equally

  lemma GovernanceTracks(v: G.Env, s: G.GState, t: G.GState, w: G.Env, g: GovernorEvent, time: real, i: nat, j: nat)
    requires SameGovernor(s, t)
    ensures SameGovernor(G.OnGovernance(v, s, g, time, i).state, G.OnGovernance(w, t, g, time, j).state)
  {
    hide By, G.OnAmendmentProposed, G.OnAmendmentApproved, G.OnAmendmentRejected, G.OnEscalationCreated,
         G.OnEscalationResolved, SameGovernor, G.OnlyGoverns;
    AmendmentsTrack(s, t, g, time);
    EscalationsTrack(v, s, t, w, g, time, i, j);
  }

  lemma PlansKeepView(v: G.Env, s: G.GState, x: ExecutiveEvent, i: nat)
    ensures x.PlanProposed? ==> SameGovernor(G.OnPlanProposed(v, s, x, i).state, s)
    ensures x.ResearchSpendRequested? ==> SameGovernor(G.OnResearchSpendRequested(v, s, x, i).state, s)
  {
    hide G.OnPlanProposed, G.OnResearchSpendRequested, By;
  }

  lemma KnowledgeTracks(s: G.GState, t: G.GState, m: MemoryEvent, time: real)
    requires SameGovernor(s, t) && m.RevisionCompleted?
    ensures SameGovernor(G.OnRevisionCompleted(s, m, time).state, G.OnRevisionCompleted(t, m, time).state)
  {
  }

  lemma SameIsTransitive(s: G.GState, s': G.GState, t: G.GState, t': G.GState)
    requires SameGovernor(s, t) && SameGovernor(s', s) && SameGovernor(t', t)
    ensures SameGovernor(s', t')
  {
  }

  lemma GovernorTracks(v: G.Env, s: G.GState, t: G.GState, w: G.Env, e: Event, i: nat, j: nat)
    requires SameGovernor(s, t)
    ensures SameGovernor(G.Step(v, s, e, i).state, G.Step(w, t, e, j).state)
  {
    hide G.OnPlanProposed, G.OnResearchSpendRequested, G.OnGovernance, G.OnRevisionCompleted, By, SameGovernor,
         G.OnlyGoverns, G.OnlyDecides, G.OnlyRecordsResearch;
    match e.body
    case OfExecutive(x) =>
      PlansKeepView(v, s, x, i);
      PlansKeepView(w, t, x, j);
      if x.PlanProposed? { SameIsTransitive(s, G.OnPlanProposed(v, s, x, i).state, t, G.OnPlanProposed(w, t, x, j).state); }
      else if x.ResearchSpendRequested? { SameIsTransitive(s, G.OnResearchSpendRequested(v, s, x, i).state, t, G.OnResearchSpendRequested(w, t, x, j).state); }
    case OfGovernor(g) => GovernanceTracks(v, s, t, w, g, e.time, i, j);
    case OfMemory(m) => if m.RevisionCompleted? { KnowledgeTracks(s, t, m, e.time); }
    case _ =>
  }

  lemma AmendmentsTrack(s: G.GState, t: G.GState, g: GovernorEvent, time: real)
    requires SameGovernor(s, t)
    ensures g.AmendmentProposed? ==> SameGovernor(G.OnAmendmentProposed(s, g, time).state, G.OnAmendmentProposed(t, g, time).state)
    ensures g.ConstitutionAmended? ==> SameGovernor(G.OnAmendmentApproved(s, g, time).state, G.OnAmendmentApproved(t, g, time).state)
    ensures g.AmendmentRejected? ==> SameGovernor(G.OnAmendmentRejected(s, g, time).state, G.OnAmendmentRejected(t, g, time).state)
  {
    hide G.FirstAmendment;
  }

  lemma EscalationsTrack(v: G.Env, s: G.GState, t: G.GState, w: G.Env, g: GovernorEvent, time: real, i: nat, j: nat)
    requires SameGovernor(s, t)
    ensures g.EscalationCreated? ==> SameGovernor(G.OnEscalationCreated(s, g, time).state, G.OnEscalationCreated(t, g, time).state)
    ensures g.EscalationResolved? ==> SameGovernor(G.OnEscalationResolved(v, s, g, time, i).state, G.OnEscalationResolved(w, t, g, time, j).state)
  {
    hide By, G.Approve, G.Deny;
  }

  lemma ExecutorTracks(n: Notation, b: T.Behaviour, s: T.TState, t: T.TState, o: Notation, c: T.Behaviour, e: Event,
        i: nat, j: nat)
    requires SameExecutor(s, t)
    ensures SameExecutor(T.Step(n, b, s, e, i).state, T.Step(o, c, t, e, j).state)
  {
    hide T.OnApprovalGranted, By, T.OnRetry;
    if e.body.OfGovernor? && e.body.g.ApprovalGranted? {
      GrantsLeaveView(n, b, s, e.body.g, i);
      GrantsLeaveView(o, c, t, e.body.g, j);
    }
    if e.body.OfExecutor? && (e.body.t.RetryScheduled? || e.body.t.RetryStarted? || e.body.t.RetryExhausted?) {
      RetriesTrack(s, t, e.body.t, e.time);
    }
  }

  lemma GrantsLeaveView(n: Notation, b: T.Behaviour, s: T.TState, g: GovernorEvent, i: nat)
    requires g.ApprovalGranted?
    ensures SameExecutor(T.OnApprovalGranted(n, b, s, g, i).state, s)
  {
    hide T.ExecuteFrom, By;
  }

  lemma RetriesTrack(s: T.TState, t: T.TState, x: ExecutorEvent, time: real)
    requires SameExecutor(s, t) && (x.RetryScheduled? || x.RetryStarted? || x.RetryExhausted?)
    ensures SameExecutor(T.OnRetry(s, x, time), T.OnRetry(t, x, time))
  {
  }

  lemma MemoryTracks(n: Notation, s: M.MState, t: M.MState, e: Event, i: nat, j: nat)
    requires SameMemory(s, t)
    ensures SameMemory(M.Step(n, s, e, i).state, M.Step(n, t, e, j).state)
  {
    hide By, M.Record, M.Learn, M.OnPredictionResolved, M.FirstPrediction;
    if e.body.OfMemory? && M.OfLoops(e.body.m) { LoopsTrack(n, s.learning, s.predictions, e.body.m, e.time, i, j); }
    if e.body.OfMemory? && e.body.m.PredictionResolved? { ResolutionTracks(s, t, e.body.m, e.time, i, j); }
  }

  lemma LoopsTrack(n: Notation, l: M.Learning, predictions: seq<M.Prediction>, m: MemoryEvent, time: real, i: nat,
        j: nat)
    ensures M.Learn(n, l, predictions, m, time, i).state == M.Learn(n, l, predictions, m, time, j).state
  {
    hide By, M.MeanError, M.Consensus, M.Confidence, M.Resolved;
  }

  lemma ResolutionTracks(s: M.MState, t: M.MState, m: MemoryEvent, time: real, i: nat, j: nat)
    requires SameMemory(s, t) && m.PredictionResolved?
    ensures SameMemory(M.OnPredictionResolved(s, m, time, i).state, M.OnPredictionResolved(t, m, time, j).state)
  {
    hide By, M.RescoredAll, M.SensorsOf, M.Resolved, M.FirstPrediction;
  }

  lemma ReliabilitiesTrack(s: W.WState, t: W.WState, e: Event)
    requires s.reliabilities == t.reliabilities
    ensures W.Step(s, e).state.reliabilities == W.Step(t, e).state.reliabilities
  {
    hide W.BeliefId, W.Clamp;
  }

  /** Two organisms with the same view still have the same view after the same event, whatever else they hold or draw. */
  lemma DeliveryTracks(v: Setting, w: Setting, o: OState, p: OState, e: Event, i: nat, j: nat)
    requires SameView(o, p) && Text(v) == Text(w)
    ensures SameView(Successor(v, o, e, i), Successor(w, p, e, j))
  {
    hide P.Step, W.Step, X.Step, G.Step, T.Step, M.Step, SameGovernor, SameExecutor, SameMemory;
    GovernorTracks(v.governor, o.governor, p.governor, w.governor, e, i, j);
    ExecutorTracks(Text(v), v.behaviour, o.executor, p.executor, Text(w), w.behaviour, e, i, j);
    MemoryTracks(Text(v), o.memory, p.memory, e, i, j);
    ReliabilitiesTrack(o.worldModel, p.worldModel, e);
  }

  // ---------------------------------------------------------------- the view, as a value

  /** What a replay recovers. */
  datatype View = View(
    amendments: seq<G.Amendment>, pendingAmendments: map<Id, G.Constitution>,
    escalations: seq<G.Escalation>, pendingEscalations: map<Id, G.Escalation>,
    playbooks: map<Id, G.Knowledge>, antiPatterns: map<Id, G.Knowledge>,
    sandbox: seq<T.SandboxRecord>, pendingSandbox: map<Id, T.SandboxRecord>,
    retries: seq<T.RetryRecord>, attempts: map<Id, nat>, credentials: map<string, T.Credential>,
    predictions: seq<M.Prediction>, pending: map<Id, M.Prediction>, learning: M.Learning,
    reliabilities: seq<M.Reliability>, spending: seq<M.RecordedSpend>, sensors: M.Attribution,
    cache: map<string, real>
  )

  function Viewed(o: OState): View {
    View(o.governor.amendments, o.governor.pendingAmendments, o.governor.escalations, o.governor.pendingEscalations,
         o.governor.playbooks, o.governor.antiPatterns,
         o.executor.sandbox, o.executor.pendingSandbox, o.executor.retries, o.executor.attempts, o.executor.equipment.credentials,
         o.memory.predictions, o.memory.pending, o.memory.learning, o.memory.reliabilities, o.memory.spending, o.memory.sensors,
         o.worldModel.reliabilities)
  }

  lemma SameIsViewedAlike(o: OState, p: OState)
    ensures SameView(o, p) <==> Viewed(o) == Viewed(p)
  {
  }

  /** An organism with the given view. */
  function Showing(x: View): OState {
    var o := Organism.Initial();
    o.(governor := o.governor.(amendments := x.amendments, pendingAmendments := x.pendingAmendments,
                               escalations := x.escalations, pendingEscalations := x.pendingEscalations,
                               playbooks := x.playbooks, antiPatterns := x.antiPatterns),
       executor := o.executor.(sandbox := x.sandbox, pendingSandbox := x.pendingSandbox, retries := x.retries,
                               attempts := x.attempts, equipment := o.executor.equipment.(credentials := x.credentials)),
       memory := o.memory.(predictions := x.predictions, pending := x.pending, learning := x.learning,
                           reliabilities := x.reliabilities, spending := x.spending, sensors := x.sensors),
       worldModel := o.worldModel.(reliabilities := x.cache))
  }

  /** What an event makes of a view. */
  ghost function Turn(v: Setting): (View, Event) -> View {
    (x: View, e: Event) => Viewed(Successor(v, Showing(x), e, 0))
  }

  /** A delivery turns the view, whatever else the organism holds and whatever ids, clocks and tools it draws. */
  lemma DeliveryTurnsView(v: Setting, w: Setting, o: OState, e: Event, tick: nat)
    requires Text(v) == Text(w)
    ensures Viewed(Successor(w, o, e, tick)) == Turn(v)(Viewed(o), e)
  {
    hide Successor, SameView;
    var shown := Showing(Viewed(o));
    assert Viewed(shown) == Viewed(o);
    SameIsViewedAlike(o, shown);
    DeliveryTracks(w, v, o, shown, e, tick, 0);
    SameIsViewedAlike(Successor(w, o, e, tick), Successor(v, shown, e, 0));
  }

  // ---------------------------------------------------------------- snapshots

  /** What the capture functions hand over: logs as lists, stores keyed by id as lists of their values. */
  datatype Snapshot = Snapshot(
    amendments: seq<G.Amendment>, escalations: seq<G.Escalation>, knowledge: seq<G.Knowledge>,
    sandbox: seq<T.SandboxRecord>, retries: seq<T.RetryRecord>, credentials: seq<T.Credential>,
    predictions: seq<M.Prediction>, learning: M.Learning, reliabilities: seq<M.Reliability>, spending: seq<M.RecordedSpend>,
    sensors: M.Attribution, cache: map<string, real>
  )

  ghost function Values<K, V>(m: map<K, V>): seq<V> {
    Enumerate(m.Values)
  }

  ghost function Capture(o: OState): Snapshot {
    Snapshot(o.governor.amendments, o.governor.escalations, Values(o.governor.playbooks) + Values(o.governor.antiPatterns),
             o.executor.sandbox, o.executor.retries, Values(o.executor.equipment.credentials),
             o.memory.predictions, o.memory.learning, o.memory.reliabilities, o.memory.spending, o.memory.sensors,
             o.worldModel.reliabilities)
  }

  function CredentialKind(c: T.Credential): string { c.actionType }
  predicate IsAnti(k: G.Knowledge) { k.kind == G.ANTI_PATTERN }
  predicate IsPlaybook(k: G.Knowledge) { k.kind != G.ANTI_PATTERN }

  /** The restore functions, run on fresh components. */
  function Restore(s: Snapshot): OState {
    var o := Organism.Initial();
    o.(governor := o.governor.(amendments := s.amendments, pendingAmendments := G.RebuiltAmendments(s.amendments),
                               escalations := s.escalations, pendingEscalations := G.RebuiltEscalations(s.escalations),
                               playbooks := Latest(Filter(s.knowledge, IsPlaybook), G.KnowledgeId),
                               antiPatterns := Latest(Filter(s.knowledge, IsAnti), G.KnowledgeId)),
       executor := o.executor.(sandbox := s.sandbox, pendingSandbox := T.RebuiltSandbox(s.sandbox),
                               retries := s.retries, attempts := T.RebuiltAttempts(s.retries),
                               equipment := o.executor.equipment.(credentials := Latest(s.credentials, CredentialKind))),
       memory := o.memory.(predictions := s.predictions, pending := M.RebuiltPending(s.predictions), learning := s.learning,
                           reliabilities := s.reliabilities, spending := s.spending, sensors := s.sensors),
       worldModel := o.worldModel.(reliabilities := s.cache))
  }

  // ---------------------------------------------------------------- what every process archives

  /** Stores keyed by id file everything under its own id. */
  ghost predicate Filed(o: OState) {
    && FiledAs(o.governor.playbooks, IsPlaybook) && FiledAs(o.governor.antiPatterns, IsAnti)
    && (forall a :: a in o.executor.equipment.credentials ==> o.executor.equipment.credentials[a].actionType == a)
    && (forall plan :: plan in o.memory.pending ==> o.memory.pending[plan].planId == plan && !o.memory.pending[plan].resolved)
  }

  ghost predicate FiledAs(m: map<Id, G.Knowledge>, kind: G.Knowledge -> bool) {
    forall id :: id in m ==> m[id].id == id && kind(m[id])
  }

  /** The Governor's and the Executor's pending maps are what their logs rebuild. */
  ghost predicate Archived(o: OState) {
    GT.Rebuildable(o.governor) && TT.Rebuildable(o.executor) && Filed(o)
  }

  lemma RevisionFiled(s: G.GState, m: MemoryEvent, time: real)
    requires m.RevisionCompleted? && FiledAs(s.playbooks, IsPlaybook) && FiledAs(s.antiPatterns, IsAnti)
    ensures var s' := G.OnRevisionCompleted(s, m, time).state; FiledAs(s'.playbooks, IsPlaybook) && FiledAs(s'.antiPatterns, IsAnti)
  {
  }

  lemma KnowledgeFiled(v: G.Env, s: G.GState, e: Event, tick: nat)
    requires FiledAs(s.playbooks, IsPlaybook) && FiledAs(s.antiPatterns, IsAnti)
    ensures var s' := G.Step(v, s, e, tick).state; FiledAs(s'.playbooks, IsPlaybook) && FiledAs(s'.antiPatterns, IsAnti)
  {
    hide G.OnPlanProposed, G.OnResearchSpendRequested, G.OnGovernance, G.OnRevisionCompleted, By, FiledAs, IsPlaybook,
         IsAnti;
    if e.body.OfMemory? && e.body.m.RevisionCompleted? { RevisionFiled(s, e.body.m, e.time); }
  }

  lemma CredentialsFiled(n: Notation, b: T.Behaviour, s: T.TState, e: Event, tick: nat)
    requires forall a :: a in s.equipment.credentials ==> s.equipment.credentials[a].actionType == a
    ensures var c := T.Step(n, b, s, e, tick).state.equipment.credentials; forall a :: a in c ==> c[a].actionType == a
  {
    hide T.OnApprovalGranted, By, T.OnRetry;
    if e.body.OfGovernor? && e.body.g.ApprovalGranted? { GrantsLeaveView(n, b, s, e.body.g, tick); }
    if e.body.OfExecutor? && (e.body.t.RetryScheduled? || e.body.t.RetryStarted? || e.body.t.RetryExhausted?) { RetriesKeepEquipment(s, e.body.t, e.time); }
  }

  lemma RetriesKeepEquipment(s: T.TState, x: ExecutorEvent, time: real)
    requires x.RetryScheduled? || x.RetryStarted? || x.RetryExhausted?
    ensures T.OnRetry(s, x, time).equipment == s.equipment
  {
  }

  lemma PredictionsFiled(n: Notation, s: M.MState, e: Event, tick: nat)
    requires forall plan :: plan in s.pending ==> s.pending[plan].planId == plan && !s.pending[plan].resolved
    ensures var pending := M.Step(n, s, e, tick).state.pending; forall plan :: plan in pending ==> pending[plan].planId == plan && !pending[plan].resolved
  {
    hide M.Learn, M.OnPredictionResolved, By;
    if e.body.OfMemory? && e.body.m.PredictionResolved? { ResolvingKeepsPending(s, e.body.m, e.time, tick); }
  }

  lemma ResolvingKeepsPending(s: M.MState, m: MemoryEvent, time: real, tick: nat)
    requires m.PredictionResolved?
    ensures M.OnPredictionResolved(s, m, time, tick).state.pending == s.pending
  {
    hide M.RescoredAll, M.SensorsOf, M.Resolved, M.FirstPrediction, By;
  }

  // ---------------------------------------------------------------- sandbox completions are honest

  ghost predicate AllHonest(ps: seq<Payload>) {
    forall p <- ps :: TT.Honest(p)
  }

  lemma {:induction false} AttemptsHonest(a: T.Action, run: nat -> T.ToolOutcome, attempt: nat)
    ensures AllHonest(T.Attempts(a, run, attempt))
    decreases a.maxAttempts - attempt
  {
    hide By, T.ExecutionId;
    if T.TryAgain(a, attempt, run(attempt)) {
      AttemptsHonest(a, run, attempt + 1);
    }
    OutcomesDiffer();
  }

  lemma OutcomesDiffer()
    ensures "succeeded" != T.STARTED && "failed" != T.STARTED
  {
    assert |"succeeded"| == 9 && |"failed"| == 6 && |T.STARTED| == 7;
  }

  lemma ActionHonest(n: Notation, b: T.Behaviour, e: T.Equipment, planId: Id, orderedAction: string, i: nat, tick: nat)
    ensures AllHonest(T.ExecuteAction(n, b, e, planId, orderedAction, i, tick).1)
  {
    hide By, T.Attempts, T.Obstacle, T.ActionType, T.MaxAttempts, T.LastAttempt, T.Logged;
    var a := T.ActionOf(e, planId, orderedAction, i, tick);
    AttemptsHonest(a, (k: nat) => b(tick, i, k), 1);
  }

  lemma {:induction false} ExecutionHonest(n: Notation, b: T.Behaviour, e: T.Equipment, planId: Id,
        actions: seq<string>, i: nat, tick: nat)
    requires i <= |actions|
    ensures AllHonest(T.ExecuteFrom(n, b, e, planId, actions, i, tick).1)
    decreases |actions| - i
  {
    hide By, T.ExecuteAction;
    if i < |actions| {
      ActionHonest(n, b, e, planId, actions[i], i, tick);
      ExecutionHonest(n, b, e, planId, actions, i + 1, tick);
    }
  }

  lemma PublicationsHonest(v: Setting, o: OState, e: Event, tick: nat)
    ensures AllHonest(Publications(v, o, e, tick))
  {
    hide P.Step, W.Step, X.Step, G.Step, T.Step, M.Step, T.ExecuteFrom;
    EachPublishesItsOwn(v, o, e, tick);
    ExecutorHonest(Text(v), v.behaviour, o.executor, e, tick);
  }

  lemma ExecutorHonest(n: Notation, b: T.Behaviour, s: T.TState, e: Event, tick: nat)
    ensures AllHonest(T.Step(n, b, s, e, tick).published)
  {
    hide T.ExecuteFrom, T.OnOwn, By;
    if e.body.OfGovernor? && e.body.g.ApprovalGranted? { ExecutionHonest(n, b, s.equipment, e.body.g.planId, e.body.g.actions, 0, tick); }
  }

  lemma DeliveryArchives(v: Setting, o: OState, e: Event, tick: nat)
    requires Archived(o) && TT.Honest(e.body)
    ensures Archived(Successor(v, o, e, tick)) && AllHonest(Publications(v, o, e, tick))
  {
    hide P.Step, W.Step, X.Step, G.Step, T.Step, M.Step, Publications, GT.Rebuildable, TT.Rebuildable, IsAnti,
         IsPlaybook, TT.Honest, FiledAs;
    GT.StepRebuildable(v.governor, o.governor, e, tick);
    TT.StepRebuildable(Text(v), v.behaviour, o.executor, e, tick);
    KnowledgeFiled(v.governor, o.governor, e, tick);
    CredentialsFiled(Text(v), v.behaviour, o.executor, e, tick);
    PredictionsFiled(Text(v), o.memory, e, tick);
    PublicationsHonest(v, o, e, tick);
  }

  lemma NothingArchived()
    ensures Archived(Organism.Initial())
  {
  }

  // ---------------------------------------------------------------- restoring what was captured

  /** Putting back the values of a store, each under its own id, gives the store back. */
  lemma Refiled<K(!new), V(!new)>(values: seq<V>, m: map<K, V>, key: V -> K)
    requires (forall x :: x in values <==> exists k :: k in m && m[k] == x) && forall k :: k in m ==> key(m[k]) == k
    ensures Latest(values, key) == m
  {
    hide Latest;
    var latest := Latest(values, key);
    forall k ensures k in latest.Keys <==> k in m.Keys {
      LatestMember(values, key, k);
      if k in m { assert m[k] in values; }
      if k in latest { var x :| x in values && key(x) == k; var k' :| k' in m && m[k'] == x; }
    }
    forall k | k in m.Keys ensures k in latest.Keys && latest[k] == m[k] {
      LatestMember(values, key, k);
      var x := latest[k];
      assert x in values;
      var k' :| k' in m && m[k'] == x;
    }
    assert latest.Keys == m.Keys;
    assert latest == m;
  }

  lemma ValuesAre<K, V>(m: map<K, V>)
    ensures forall x :: x in Values(m) <==> exists k :: k in m && m[k] == x
  {
    forall x ensures x in Values(m) <==> exists k :: k in m && m[k] == x {
      assert x in multiset(Values(m)) <==> x in multiset(m.Values);
    }
  }

  /** Sifting one kind out of what both stores held gives that kind's store back. */
  lemma Sifted(knowledge: seq<G.Knowledge>, mine: map<Id, G.Knowledge>, others: map<Id, G.Knowledge>,
        kind: G.Knowledge -> bool)
    requires forall x :: x in knowledge <==> x in Values(mine) || x in Values(others)
    requires FiledAs(mine, kind) && forall id :: id in others ==> !kind(others[id])
    ensures Latest(Filter(knowledge, kind), G.KnowledgeId) == mine
  {
    hide Latest, Filter, Values;
    ValuesAre(mine);
    ValuesAre(others);
    FilterMembers(knowledge, kind);
    forall x | x in Values(others) ensures !kind(x) {
      var id :| id in others && others[id] == x;
    }
    Refiled(Filter(knowledge, kind), mine, G.KnowledgeId);
  }

  lemma KnowledgeRefiled(s: G.GState, knowledge: seq<G.Knowledge>)
    requires knowledge == Values(s.playbooks) + Values(s.antiPatterns)
    requires FiledAs(s.playbooks, IsPlaybook) && FiledAs(s.antiPatterns, IsAnti)
    ensures Latest(Filter(knowledge, IsPlaybook), G.KnowledgeId) == s.playbooks
    ensures Latest(Filter(knowledge, IsAnti), G.KnowledgeId) == s.antiPatterns
  {
    hide Latest, Filter, Values;
    Sifted(knowledge, s.playbooks, s.antiPatterns, IsPlaybook);
    Sifted(knowledge, s.antiPatterns, s.playbooks, IsAnti);
  }

  /** The last entry of a plan's history is its latest record. */
  lemma {:induction false} LatestOfPlan(predictions: seq<M.Prediction>, plan: Id)
    ensures var h := Project(predictions, F.EntryOf(plan));
            && (plan in Latest(predictions, M.PlanOf) <==> h != [])
            && (h != [] ==> var r := Latest(predictions, M.PlanOf)[plan]; h[|h| - 1] == PL.Entry(r.id, r.resolved, r.outcomeId))
  {
    if predictions == [] {
    } else {
      hide Latest, Project;
      var before, r := predictions[..|predictions| - 1], predictions[|predictions| - 1];
      LatestOfPlan(before, plan);
      assert predictions == before + [r];
      ProjectSnoc(before, r, F.EntryOf(plan));
      LatestSnoc(before, r, M.PlanOf);
    }
  }

  /** A plan with one record on the ledger has that record as its latest. */
  lemma OnlyRecord(predictions: seq<M.Prediction>, plan: Id, r: M.Prediction)
    requires |Project(predictions, F.EntryOf(plan))| == 1 && r in predictions && r.planId == plan
    ensures plan in Latest(predictions, M.PlanOf) && Latest(predictions, M.PlanOf)[plan] == r
  {
    LatestMember(predictions, M.PlanOf, plan);
    var l := Latest(predictions, M.PlanOf)[plan];
    var i :| 0 <= i < |predictions| && predictions[i] == r;
    var j :| 0 <= j < |predictions| && predictions[j] == l;
    if i < j { TwoRecords(predictions, plan, i, j); } else if j < i { TwoRecords(predictions, plan, j, i); }
  }

  lemma TwoRecords(predictions: seq<M.Prediction>, plan: Id, i: nat, j: nat)
    requires i < j < |predictions| && predictions[i].planId == plan && predictions[j].planId == plan
    ensures |Project(predictions, F.EntryOf(plan))| >= 2
  {
    var f := F.EntryOf(plan);
    var a, b := predictions[..i + 1], predictions[i + 1..];
    assert predictions == a + b && a[i] == predictions[i] && b[j - i - 1] == predictions[j];
    ProjectConcat(a, b, f);
    ProjectMember(a, f, i);
    ProjectMember(b, f, j - i - 1);
  }

  // ---------------------------------------------------------------- when restoring is faithful

  /** Restoring what was captured of an organism gives its view back exactly when its pending predictions are rebuilt. */
  lemma RestoringIsFaithfulIff(o: OState)
    requires Archived(o)
    ensures Archived(Restore(Capture(o)))
    ensures Viewed(Restore(Capture(o))) == Viewed(o) <==> M.RebuiltPending(o.memory.predictions) == o.memory.pending
  {
    hide G.RebuiltAmendments, G.RebuiltEscalations, T.RebuiltSandbox, T.RebuiltAttempts, M.RebuiltPending, Latest, Filter,
         Values, FiledAs, IsAnti, IsPlaybook;
    var snapshot := Capture(o);
    KnowledgeRefiled(o.governor, snapshot.knowledge);
    ValuesAre(o.executor.equipment.credentials);
    Refiled(snapshot.credentials, o.executor.equipment.credentials, CredentialKind);
    RebuiltIsFiled(snapshot.predictions);
  }

  lemma RebuiltIsFiled(predictions: seq<M.Prediction>)
    ensures var pending := M.RebuiltPending(predictions);
            forall plan :: plan in pending ==> pending[plan].planId == plan && !pending[plan].resolved
  {
    hide Latest;
    forall plan ensures plan in Latest(predictions, M.PlanOf) ==> Latest(predictions, M.PlanOf)[plan].planId == plan {
      LatestMember(predictions, M.PlanOf, plan);
    }
  }

  /** What is kept of an organism's process: its archive is in order, and so is what it has logged. */
  ghost predicate Kept(p: Point) {
    Archived(p.o) && AllHonest(Log(p))
  }

  lemma StepKeepsArchive(v: Setting, p: Point, move: Move, e: Event)
    requires Kept(p) && Possible(p, move) && HeadIs(p, e)
    ensures Kept(Stepped(v, p, move, e))
  {
    hide Archived, TT.Honest, Publications, Successor, Outside, Reconfigures;
    NothingArchived();
    if p.queue != [] {
      LogTurns(p);
      DeliveryArchives(v, p.o, e, p.ticks);
    }
    match move
    case Enter(body, _) => assert TT.Honest(body) by { OutsideIsHonest(p.o, body); }
    case Next => assert Log(Moved(v, p, e)) == Log(p) + Publications(v, p.o, e, p.ticks);
    case Reboot => assert Log(Rebooted(p)) == Log(p);
    case Tear(n) => assert Log(Torn(v, p, e, n)) == Log(p) + Taken(Publications(v, p.o, e, p.ticks), n);
    case Configure(o) => ConfiguringKeepsArchive(p.o, o);
    case _ =>
  }

  lemma OutsideIsHonest(o: OState, body: Payload)
    requires Outside(o, body)
    ensures TT.Honest(body)
  {
  }

  lemma ConfiguringKeepsArchive(o: OState, o': OState)
    requires Archived(o) && Reconfigures(o, o')
    ensures Archived(o')
  {
    hide G.RebuiltAmendments, G.RebuiltEscalations, T.RebuiltSandbox, T.RebuiltAttempts;
  }

  lemma BornKept()
    ensures Kept(Birth())
  {
    NothingArchived();
  }

  lemma RunsKeepArchive(v: Setting, moves: seq<Move>)
    requires Legal(v, moves)
    ensures Kept(Here(v, moves))
  {
    hide Reached, Legal, Loses, Kept, Possible, Affords, Stepped;
    var inv := (p: Point) => Kept(p);
    BornKept();
    forall p, move, e: Event | inv(p) && Possible(p, move) && HeadIs(p, e)
      ensures inv(Stepped(v, p, move, e)) {
      StepKeepsArchive(v, p, move, e);
    }
    LosesAnything(v, moves);
    RunsKeep(v, moves, AnyLoss, inv);
  }

  /** A pending prediction, on the ledger under its own plan, is what the ledger last says of that plan. */
  lemma PendingRebuiltFor(s: M.MState, log: seq<Payload>, plan: Id)
    requires F.FirstOutcomeRules(s, log, plan) && O.PendingOnLedger(s)
    requires F.Items(log, plan) != [] ==> PlanLog.Has(F.Items(log, plan), PlanLog.IsProposal)
    requires F.Items(log, plan) == [] ==> Project(s.predictions, F.EntryOf(plan)) == [] && plan !in s.pending
    requires forall id :: id in s.pending ==> s.pending[id].planId == id && !s.pending[id].resolved
    ensures var rebuilt := M.RebuiltPending(s.predictions);
            (plan in rebuilt <==> plan in s.pending) && (plan in s.pending ==> rebuilt[plan] == s.pending[plan])
  {
    hide Latest, Project, PlanLog.Reports, PL.IsFirstAction, PlanLog.Has, F.Items;
    LatestOfPlan(s.predictions, plan);
    if plan in s.pending { OnlyRecord(s.predictions, plan, s.pending[plan]); }
  }

  /**
   In a run that has lost nothing, whenever the queue has drained, what is restored from a snapshot has the view
   of what was captured.
   */
  lemma RestoreIsFaithful(v: Setting, moves: seq<Move>)
    requires Legal(v, moves) && Loses(v, moves, NoLoss) && Here(v, moves).queue == []
    ensures Viewed(Restore(Capture(Here(v, moves).o))) == Viewed(Here(v, moves).o)
  {
    hide Here, Legal, Loses, GT.Rebuildable, TT.Rebuildable, FiledAs, O.InOrder, F.FirstOutcomeRules, F.Held, F.Items, Viewed,
         Restore, Capture, M.RebuiltPending;
    var p := Here(v, moves);
    RunsKeepArchive(v, moves);
    F.RunsKeepLives(v, moves);
    RestoringIsFaithfulIff(p.o);
    var s := p.o.memory;
    assert O.PendingOnLedger(s) by { PendingIsKnown(p); }
    forall plan ensures PendingAgrees(s, plan) {
      F.FirstOutcomeWins(v, moves, plan);
      UnheardOf(p, plan);
      PendingRebuiltFor(s, Log(p), plan);
    }
    PendingIsRebuilt(s);
  }

  ghost predicate PendingAgrees(s: M.MState, plan: Id) {
    var rebuilt := M.RebuiltPending(s.predictions);
    (plan in rebuilt <==> plan in s.pending) && (plan in s.pending ==> rebuilt[plan] == s.pending[plan])
  }

  lemma PendingIsRebuilt(s: M.MState)
    requires forall plan :: PendingAgrees(s, plan)
    ensures M.RebuiltPending(s.predictions) == s.pending
  {
    hide M.RebuiltPending;
    var rebuilt := M.RebuiltPending(s.predictions);
    forall plan ensures (plan in rebuilt <==> plan in s.pending) && (plan in s.pending ==> rebuilt[plan] == s.pending[plan]) {
      assert PendingAgrees(s, plan);
    }
  }

  lemma PendingIsKnown(p: Point)
    requires O.InOrder(p)
    ensures O.PendingOnLedger(p.o.memory)
  {
    hide O.Ordered, O.Ready, O.Provenance, O.Complete;
  }

  /** Memory holds nothing on a plan the log says nothing about. */
  lemma UnheardOf(p: Point, plan: Id)
    requires F.Lives(p, true) && p.queue == []
    ensures F.Items(Log(p), plan) != [] ==> PlanLog.Has(F.Items(Log(p), plan), PlanLog.IsProposal)
    ensures F.Items(Log(p), plan) == [] ==> Project(p.o.memory.predictions, F.EntryOf(plan)) == [] && plan !in p.o.memory.pending
  {
    hide PL.Good, F.Items, Project, O.InOrder, F.Unminted, PlanLog.ViewOf, PlanLog.History, PlanLog.Pending, F.Known;
    assert Log(p) == p.past == Done(p);
    assert F.LifeOf(p, plan, true);
    PlanLog.HistoryParts([], []);
    PlanLog.NothingDone();
    F.HoldingOf(p.o.memory, plan);
  }

  // ---------------------------------------------------------------- recovery by a new process

  /** The organism with its capture and restore functions. */
  ghost function Recoverable(v: Setting): (w: Wiring<OState, Snapshot>)
    ensures Ranked(w)
  {
    hide Handle, Capture, Restore;
    var restore := (o: OState, s: Snapshot) => Restore(s);
    EveryDrainTerminates(v, Capture, restore);
    OrganismWiring(v, Capture, restore)
  }

  /** Its view is the part of it that deliveries determine. */
  lemma OrganismTracks(v: Setting, w: Setting)
    requires Text(v) == Text(w)
    ensures K.Tracks(Recoverable(w), Viewed, Turn(v))
  {
    hide Successor, Publications, Viewed, Turn;
    forall o, e, t: nat ensures Viewed(Recoverable(w).handler(o, e, t).state) == Turn(v)(Viewed(o), e) {
      DeliveryTurnsView(v, w, o, e, t);
    }
  }

  /**
   Calls the organism's recovery is proved over. Shutdown throws nothing away; nothing is published before the start,
   and nothing dishonest about a sandbox; snapshots are taken with an empty queue, when the pending predictions are those
   the ledger rebuilds. Crashes may come between any two calls.
   */
  ghost predicate LegalCall(v: Setting, k: KState<OState, Snapshot>, op: K.Op) {
    && (op.DoPublish? ==> k.started && TT.Honest(op.body))
    && (op.DoSnapshot? ==> k.started && Queue(k.m) == [] && M.RebuiltPending(k.m.state.memory.predictions) == k.m.state.memory.pending)
    && (!op.Crash? ==> Spares(v, k, op))
  }

  /** The call throws nothing away. */
  ghost predicate Spares(v: Setting, k: KState<OState, Snapshot>, op: K.Op) {
    WellFormed(k.m) && K.Do(Recoverable(v), Organism.Initial(), k, op).lost == k.lost
  }

  /** The kernel on the organism, after some calls. */
  ghost function Called(v: Setting, ops: seq<K.Op>): (k: KState<OState, Snapshot>)
    ensures WellFormed(k.m)
  {
    K.Run(Recoverable(v), Organism.Initial(), ops)
  }

  /** A new process, once it has replayed the log found, from the snapshot found. */
  ghost function Reborn(v: Setting, log: seq<Event>, saved: Option<(nat, Snapshot)>, tick: nat): KState<OState, Snapshot> {
    hide Capture, Restore;
    Replay(Recoverable(v), Boot(log, saved, Organism.Initial(), tick))
  }

  ghost predicate LegalCalls(v: Setting, ops: seq<K.Op>) {
    ops != [] ==> LegalCalls(v, ops[..|ops| - 1]) && LegalCall(v, Called(v, ops[..|ops| - 1]), ops[|ops| - 1])
  }

  ghost predicate HonestCalls(ops: seq<K.Op>) {
    forall op <- ops :: op.DoPublish? ==> TT.Honest(op.body)
  }

  lemma {:induction false} CallsAreHonest(v: Setting, ops: seq<K.Op>)
    requires LegalCalls(v, ops)
    ensures HonestCalls(ops)
  {
    hide Recoverable, K.Run, TT.Honest, M.RebuiltPending;
    if ops != [] {
      CallsAreHonest(v, ops[..|ops| - 1]);
      assert ops == ops[..|ops| - 1] + [ops[|ops| - 1]];
    }
  }

  /** Archives are in order in every process, whatever was captured, lost and restored before. */
  lemma CallsKeepArchive(v: Setting, ops: seq<K.Op>)
    requires HonestCalls(ops)
    ensures Archived(Called(v, ops).m.state)
  {
    hide Archived, Successor, Publications, TT.Honest, Capture, Restore, Ranked, K.Run;
    var w := Recoverable(v);
    var admits, inv := (p: Payload) => TT.Honest(p), (o: OState) => Archived(o);
    forall o, e: Event, t: nat | inv(o) && admits(e.body)
      ensures inv(w.handler(o, e, t).state) && forall p <- w.handler(o, e, t).published :: admits(p) {
      DeliveryArchives(v, o, e, t);
    }
    forall o, blank | inv(o) && inv(blank) ensures inv(w.restore(blank, w.capture(o))) { RestoringIsFaithfulIff(o); }
    assert K.AdmitsKernel(admits) by { KernelIsHonest(); }
    NothingArchived();
    K.RunsKeep(w, admits, inv, Organism.Initial(), ops);
  }

  lemma KernelIsHonest()
    ensures forall own: KernelEvent :: TT.Honest(OfKernel(own))
  {
  }

  lemma {:induction false} CallsAreCovered(v: Setting, ops: seq<K.Op>)
    requires LegalCalls(v, ops)
    ensures K.LegalRun(Recoverable(v), Viewed, Organism.Initial(), ops)
  {
    hide Viewed, Capture, Restore, K.Run, K.Do, TT.Honest, M.RebuiltPending, Archived, Ranked, Successor, Publications;
    if ops != [] {
      var before := ops[..|ops| - 1];
      CallsAreCovered(v, before);
      CallsAreHonest(v, before);
      CallsKeepArchive(v, before);
      RestoringIsFaithfulIff(K.Run(Recoverable(v), Organism.Initial(), before).m.state);
    }
  }

  /**
   Replay fidelity of the wired organism. Whatever was called, with crashes between any two calls: a drained organism, a
   full replay of its log by a new process, and a replay of only the tail after its snapshot all have the same view; and
   the log is left alone.
   */
  lemma ReplayReproducesOrganism(v: Setting, ops: seq<K.Op>)
    requires LegalCalls(v, ops)
    requires Called(v, ops).replayed && Queue(Called(v, ops).m) == []
    ensures var k := Called(v, ops);
            var full, tail := Reborn(v, k.m.log, None, k.m.ticks), Reborn(v, k.m.log, k.saved, k.m.ticks);
            && Viewed(full.m.state) == Viewed(tail.m.state) == Viewed(k.m.state) && full.m.log == tail.m.log == k.m.log
  {
    hide Viewed, Capture, Restore, K.Run, LegalCalls, K.LegalRun, K.Tracks, Ranked, Replay, Recoverable, Publications, Successor;
    OrganismTracks(v, v);
    CallsAreCovered(v, ops);
    K.ReplayReproducesLiveState(Recoverable(v), Viewed, Turn(v), Organism.Initial(), ops);
  }

  // ---------------------------------------------------------------- the tail of a run

  /** The view is what the events dispatched so far make of the first one. */
  ghost predicate Folded(v: Setting, m: Machine<OState>) {
    K.CaughtUp(Viewed, Turn(v), Organism.Initial(), m)
  }

  lemma GoFolds(v: Setting, l: Life, move: Move)
    requires Orderly(l) && Allowed(l, move) && !move.Drop? && Folded(v, l.m)
    ensures Folded(v, Go(v, l, move).m)
  {
    hide Viewed, Turn, Successor, Publications, Outside, Reconfigures, Reactions, Deliver, Live, React;
    var m, m' := l.m, Go(v, l, move).m;
    match move
    case Enter(_, _) => assert m'.log[..m'.head] == m.log[..m.head];
    case Configure(o) => ConfiguringIsUnseen(m.state, o);
    case Next => DispatchFolds(v, m, m');
    case Hear => DispatchFolds(v, m, m');
    case _ =>
  }

  /** Live or replayed, a dispatch turns the view by the event it hands over. */
  lemma DispatchFolds(v: Setting, m: Machine<OState>, m': Machine<OState>)
    requires WellFormed(m) && m.head < |m.log| && Folded(v, m)
    requires m' == Deliver(Live(v), m) || m' == Reacted(Live(v), m)
    ensures Folded(v, m')
  {
    hide Viewed, Turn, Successor, Publications, Reactions, Deliver, Live, React;
    var e := m.log[m.head];
    ReactsAsWired(v, m);
    DeliverShape(Live(v), m);
    assert m'.log[..m'.head] == m.log[..m.head] + [e];
    K.FoldViewSnoc(Turn(v), Viewed(Organism.Initial()), m.log[..m.head], e);
    DeliveryTurnsView(v, v, m.state, e, m.ticks);
  }

  lemma ConfiguringIsUnseen(o: OState, o': OState)
    requires Reconfigures(o, o')
    ensures Viewed(o') == Viewed(o)
  {
    hide BeliefsInRange;
  }

  /** A run that drops nothing has the view its log makes, however often it was restarted. */
  lemma {:induction false} RunsAreFolds(v: Setting, moves: seq<Move>)
    requires Legal(v, moves) && Loses(v, moves, NoDrops)
    ensures Folded(v, Reached(v, moves).m)
  {
    hide Go, Allowed, Turn, Viewed;
    if moves == [] {
      assert Folded(v, Beginning(v).m);
    } else {
      RunsAreFolds(v, moves[..|moves| - 1]);
      RunsAreOrderly(v, moves[..|moves| - 1]);
      GoFolds(v, Reached(v, moves[..|moves| - 1]), moves[|moves| - 1]);
    }
  }

  lemma {:induction false} LogGrows(v: Setting, moves: seq<Move>, later: seq<Move>)
    requires Legal(v, moves + later)
    ensures Legal(v, moves) && Reached(v, moves).m.log <= Reached(v, moves + later).m.log
    decreases |later|
  {
    hide Go, Allowed, Beginning;
    if later == [] {
      assert moves + later == moves;
    } else {
      var front, last := later[..|later| - 1], later[|later| - 1];
      assert (moves + later)[..|moves + later| - 1] == moves + front;
      LogGrows(v, moves, front);
      RunsAreOrderly(v, moves + front);
      GoGrows(v, Reached(v, moves + front), last);
    }
  }

  lemma GoGrows(v: Setting, l: Life, move: Move)
    requires Orderly(l)
    ensures l.m.log <= Go(v, l, move).m.log
  {
    hide Successor, Publications, Reactions, Deliver, Live, React;
    if move.Next? && l.m.head < |l.m.log| { DeliverShape(Live(v), l.m); }
    if move.Tear? && l.m.head < |l.m.log| { RemainsGrow(v, l.m, move.n); }
  }

  lemma RemainsGrow(v: Setting, m: Machine<OState>, n: nat)
    requires WellFormed(m) && m.head < |m.log|
    ensures m.log <= Remains(v, m, n).m.log
  {
    hide Successor, Publications, React, Live, AcceptAll, Published;
    AcceptAllAppends(Live(v), Reacted(Live(v), m), Taken(React(Live(v), m).published, n));
  }

  /** The view of a new process once it has replayed the log found, from the snapshot found. */
  ghost function Recovered(replay: Setting, log: seq<Event>, saved: Option<(nat, Snapshot)>, tick: nat): View {
    hide Capture, Restore, Viewed;
    Viewed(Reborn(replay, log, saved, tick).m.state)
  }

  /** The snapshot holds the view that the events before it make. */
  ghost predicate Stands(v: Setting, log: seq<Event>, saved: Option<(nat, Snapshot)>) {
    saved.Some? ==> (saved.value.0 <= |log|
                     && Viewed(Restore(saved.value.1)) == K.FoldView(Turn(v), Viewed(Organism.Initial()), log[..saved.value.0]))
  }

  /** What a new process makes of a log, from such a snapshot or from nothing. */
  lemma ReplayingFolds(v: Setting, replay: Setting, log: seq<Event>, saved: Option<(nat, Snapshot)>, tick: nat)
    requires Text(replay) == Text(v) && Stands(v, log, saved)
    ensures Recovered(replay, log, saved, tick) == K.FoldView(Turn(v), Viewed(Organism.Initial()), log)
  {
    hide Viewed, Turn, Restore, Capture, Successor, Publications, K.Tracks;
    var w, k := Recoverable(replay), Boot(log, saved, Organism.Initial(), tick);
    OrganismTracks(v, replay);
    assert K.Faithful(w, Viewed, Turn(v), Organism.Initial(), k);
    K.ReplayFaithful(w, Viewed, Turn(v), Organism.Initial(), k);
    assert log[..|log|] == log;
  }

  /** The snapshot a run leaves where it is. */
  ghost function SnapshotAt(v: Setting, moves: seq<Move>): Option<(nat, Snapshot)> {
    hide Capture;
    Some((|Reached(v, moves).m.log|, Capture(Here(v, moves).o)))
  }

  /**
   Take a snapshot whenever the queue has drained and nothing has been lost, let the organism run on in any way, and lose
   the process: its successor has the same view whether it restores the snapshot and replays the tail of the log or replays
   all of it, with whatever ids, clocks and tools that replay draws.
   */
  lemma RecoveriesAgree(v: Setting, moves: seq<Move>, later: seq<Move>, replay: Setting, tick: nat)
    requires Legal(v, moves + later) && Loses(v, moves, NoLoss) && Here(v, moves).queue == [] && Text(replay) == Text(v)
    ensures var log := Reached(v, moves + later).m.log;
            && Recovered(replay, log, SnapshotAt(v, moves), tick) == Recovered(replay, log, None, tick)
            && Recovered(replay, log, None, tick) == K.FoldView(Turn(v), Viewed(Organism.Initial()), log)
  {
    hide Reached, Legal, Loses, Capture, Restore, Viewed, Turn, Recovered;
    var m, log := Reached(v, moves).m, Reached(v, moves + later).m.log;
    LogGrows(v, moves, later);
    RunsAreOrderly(v, moves);
    LossesCompare(v, moves);
    RunsAreFolds(v, moves);
    RestoreIsFaithful(v, moves);
    assert m.head == |m.log| && m.log[..m.head] == m.log == log[..|m.log|] by { assert At(Reached(v, moves)).queue == []; }
    ReplayingFolds(v, replay, log, SnapshotAt(v, moves), tick);
    ReplayingFolds(v, replay, log, None, tick);
  }

  /** And if the process had dropped nothing and its queue had drained, that view is the one it had when it was lost. */
  lemma SnapshotPlusTailIsLive(v: Setting, moves: seq<Move>, later: seq<Move>, replay: Setting, tick: nat)
    requires Legal(v, moves + later) && Loses(v, moves, NoLoss) && Here(v, moves).queue == [] && Text(replay) == Text(v)
    requires Loses(v, moves + later, NoDrops) && Here(v, moves + later).queue == []
    ensures var log, live := Reached(v, moves + later).m.log, Viewed(Here(v, moves + later).o);
            Recovered(replay, log, SnapshotAt(v, moves), tick) == live && Recovered(replay, log, None, tick) == live
  {
    hide Reached, Legal, Loses, Capture, Restore, Viewed, Turn, Recovered, SnapshotAt;
    RecoveriesAgree(v, moves, later, replay, tick);
    RunsAreFolds(v, moves + later);
    RunsAreOrderly(v, moves + later);
    var m := Reached(v, moves + later).m;
    assert m.log[..m.head] == m.log by { assert At(Reached(v, moves + later)).queue == []; }
  }
}
