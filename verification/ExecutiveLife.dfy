/** The Executive over whole runs: always ready to deliberate, never raising, its soft stop final. */
module ExecutiveLife {
  import opened Prelude
  import opened Ordering
  import opened Ranking
  import opened Rounding
  import opened Events
  import opened Rules
  import opened KernelModel
  import opened Organism
  import opened Runs
  import opened Deliberation
  import opened Openings
  import Ranges
  import P = PerceptionModel
  import W = WorldModelModel
  import X = ExecutiveModel
  import G = GovernorModel
  import T = ExecutorModel
  import M = MemoryModel

  // ---------------------------------------------------------------- what every reachable state keeps

  /** Plans and opportunities are filed together; pending plans are filed, distinct, and older than this delivery. */
  ghost predicate Filed(s: X.Stores, ticks: nat) {
    && (forall p <- s.plans :: p.opportunityId in Latest(s.opportunities, X.OpportunityId))
    && (forall id <- s.pendingPlans :: id in Latest(s.plans, X.PlanId) && id.Minted? && id.tick < ticks)
    && Unique(s.pendingPlans)
  }

  /** Every clustered belief has a confidence to aggregate. */
  ghost predicate Signalled(c: X.Clusters) {
    forall s :: s in c.members ==> forall b <- c.members[s] :: b in c.confidence
  }

  ghost predicate Prepared(p: Point) {
    Filed(p.o.executive.stores, p.ticks) && Signalled(p.o.executive.clusters)
  }

  // ---------------------------------------------------------------- the Executive's handlers

  /** What one delivery owes. */
  ghost predicate Keeps(s: X.XState, tick: nat) {
    Filed(s.stores, tick + 1) && Signalled(s.clusters)
  }

  lemma FiledOn(s: X.Stores, tick: nat)
    requires Filed(s, tick)
    ensures Filed(s, tick + 1)
  {
    hide Latest, Unique;
  }

  lemma SignalsKept(c: X.Clusters, beliefId: string, confidence: real, correlation: Correlation, tick: nat)
    requires Signalled(c)
    ensures Signalled(X.RegisterBeliefSignal(c, beliefId, confidence, correlation, tick).state)
  {
    hide X.ClaimKey, By;
  }

  lemma BeliefKeeps(s: X.XState, w: WorldModelEvent, correlation: Correlation, tick: nat)
    requires Filed(s.stores, tick) && Signalled(s.clusters)
    ensures Keeps(X.OnWorldModel(s, w, correlation, tick).state, tick)
  {
    hide X.RegisterBeliefSignal, Filed, X.FirstGeneration, By;
    FiledOn(s.stores, tick);
    SignalsKept(if w.BeliefCreated? then s.clusters.(claim := s.clusters.claim[w.beliefId := w.claim]) else s.clusters,
                w.beliefId, w.confidence, correlation, tick);
  }

  lemma GenerateKeeps(n: Notation, c: X.Clusters, x: ExecutiveEvent, beliefIds: seq<string>, tick: nat)
    requires x.GenerationStarted?
    ensures var r := X.Generate(n, c, x, beliefIds, tick);
            r.state.members == c.members && r.state.confidence == c.confidence
  {
    hide X.Confidences, X.AggregateConfidence, By;
  }

  lemma StartKeeps(n: Notation, s: X.XState, x: ExecutiveEvent, time: real, tick: nat)
    requires x.GenerationStarted? && Filed(s.stores, tick) && Signalled(s.clusters)
    ensures Keeps(X.OnGenerationStarted(n, s, x, time, tick).state, tick)
  {
    hide X.Generate, X.Cluster, Latest, Unique, X.FirstGeneration, By;
    var beliefIds := X.Cluster(s.clusters, x.signature);
    GenerateKeeps(n, s.clusters, x, beliefIds, tick);
  }

  lemma UniqueSnoc(ids: seq<Id>, id: Id)
    requires Unique(ids) && id !in ids
    ensures Unique(ids + [id])
  {
  }

  lemma PursuitKeeps(n: Notation, s: X.XState, x: ExecutiveEvent, tick: nat)
    requires x.GenerationCompleted? && x.groupId.Some? && x.opportunity.Some? && Filed(s.stores, tick)
    ensures var r := X.Pursue(n, s, x, tick);
            && Filed(r.state.stores, tick + 1)
            && r.state.clusters.members == s.clusters.members && r.state.clusters.confidence == s.clusters.confidence
  {
    hide Latest, Unique, Round4, By;
    var o := X.Valued(x.opportunity.value, x.beliefIds, x.confidence);
    var p := X.PlanFor(n, o, tick);
    LatestSnoc(s.stores.opportunities, o, X.OpportunityId);
    LatestSnoc(s.stores.plans, p, X.PlanId);
    UniqueSnoc(s.stores.pendingPlans, p.id);
  }

  lemma CompletionKeeps(n: Notation, s: X.XState, x: ExecutiveEvent, time: real, tick: nat)
    requires x.GenerationCompleted? && Filed(s.stores, tick) && Signalled(s.clusters)
    ensures Keeps(X.OnGenerationCompleted(n, s, x, time, tick).state, tick)
  {
    hide X.Pursue, X.Recorded, Filed, X.FirstGeneration, By;
    FiledOn(s.stores, tick);
    var first := X.FirstGeneration(s.stores.generations, x.generationId);
    if first.Some? {
      var g := X.Recorded(x, first.value.started, time);
      var s1 := s.(stores := s.stores.(generations := s.stores.generations + [g]));
      FiledElsewhere(s.stores, s1.stores, tick);
      FiledOn(s1.stores, tick);
      if x.accepted && x.groupId.Some? && x.opportunity.Some? {
        PursuitKeeps(n, s1.(research := s1.research.(novel := s1.research.novel + 1)), x, tick);
      }
    }
  }

  lemma FiledElsewhere(s: X.Stores, s': X.Stores, tick: nat)
    requires Filed(s, tick) && s'.plans == s.plans && s'.opportunities == s.opportunities && s'.pendingPlans == s.pendingPlans
    ensures Filed(s', tick)
  {
    hide Latest, Unique;
  }

  lemma {:induction false} RequestsKeep(n: Notation, s: X.XState, cs: seq<X.Candidate>)
    ensures var r := X.RequestAll(n, s, cs);
            r.state.clusters == s.clusters && r.state.stores == s.stores
    decreases |cs|
  {
    hide By;
    if cs != [] { RequestsKeep(n, X.RequestResearch(n, s, cs[0]).state, cs[1..]); }
  }

  lemma ExecutiveKeeps(n: Notation, s: X.XState, e: Event, tick: nat)
    requires Filed(s.stores, tick) && Signalled(s.clusters)
    ensures Keeps(X.Step(n, s, e, tick).state, tick)
  {
    hide X.OnGenerationStarted, X.OnGenerationCompleted, X.OnWorldModel, X.RequestAll, X.Seeds, X.Situation, Filed,
         X.FirstGeneration, By;
    FiledOn(s.stores, tick);
    match e.body
    case OfKernel(k) => RequestsKeep(n, s, ByWorth(X.Seeds(), X.PriorityOf));
    case OfWorldModel(w) => BeliefKeeps(s, w, e.correlation, tick);
    case OfExecutive(x) =>
      if x.GenerationStarted? { StartKeeps(n, s, x, e.time, tick); }
      else if x.GenerationCompleted? { CompletionKeeps(n, s, x, e.time, tick); }
    case OfMemory(m) =>
      if m.OutcomeRecorded? { FiledElsewhere(s.stores, X.OnOutcomeRecorded(s, m.planId).stores, tick + 1); }
    case _ =>
  }

  // ---------------------------------------------------------------- over whole runs

  lemma DeliveringStaysPrepared(v: Setting, p: Point, e: Event)
    requires Prepared(p)
    ensures Keeps(Successor(v, p.o, e, p.ticks).executive, p.ticks)
  {
    hide P.Step, W.Step, X.Step, G.Step, T.Step, M.Step, Filed, Signalled;
    ExecutiveKeeps(Text(v), p.o.executive, e, p.ticks);
  }

  lemma ConfiguringStaysPrepared(p: Point, o: OState)
    requires Prepared(p) && Reconfigures(p.o, o)
    ensures Prepared(Configured(p, o))
  {
    hide Latest, BeliefsInRange;
  }

  lemma BornPrepared(p: Point)
    requires p.o == Organism.Initial()
    ensures Prepared(p)
  {
  }

  lemma StepStaysPrepared(v: Setting, p: Point, move: Move, e: Event)
    requires Prepared(p) && Possible(p, move)
    ensures Prepared(Stepped(v, p, move, e))
  {
    hide Filed, Signalled, Publications, Successor, Outside, Reconfigures;
    match move
    case Next => DeliveringStaysPrepared(v, p, e);
    case Hear => DeliveringStaysPrepared(v, p, e);
    case Reboot => BornPrepared(Rebooted(p));
    case Tear(n) => BornPrepared(Torn(v, p, e, n));
    case Configure(o) => ConfiguringStaysPrepared(p, o);
    case _ =>
  }

  lemma RunsStayPrepared(v: Setting, moves: seq<Move>)
    requires Legal(v, moves)
    ensures Prepared(Here(v, moves))
  {
    hide Reached, Legal, Loses, Prepared, Possible, Affords, Stepped;
    var inv := (p: Point) => Prepared(p);
    BornPrepared(Birth());
    forall p, move, e: Event | inv(p) && Possible(p, move) && HeadIs(p, e)
      ensures inv(Stepped(v, p, move, e)) {
      StepStaysPrepared(v, p, move, e);
    }
    LosesAnything(v, moves);
    RunsKeep(v, moves, AnyLoss, inv);
  }

  lemma FiledIsKnown(s: X.Stores, ticks: nat)
    requires Filed(s, ticks)
    ensures Known(s) && Unique(s.pendingPlans)
  {
    hide Latest, Unique;
    forall id | id in s.pendingPlans ensures PlanKnown(s, id) {
      LatestMember(s.plans, X.PlanId, id);
    }
  }

  /**
   In every run, across restarts, a deliberation finds every pending plan and its opportunity, once each, and
   with non-negative judgements no candidate demands a negative share: what WinnerIsOptimal,
   AllocationIsMaximal and WinnerAndAbandonedPartition ask for always holds.
   */
  lemma DeliberationIsAlwaysReady(v: Setting, moves: seq<Move>, judge: Id -> real)
    requires Legal(v, moves)
    ensures var s := Here(v, moves).o.executive.stores;
            && Known(s) && Unique(s.pendingPlans)
            && ((forall id :: judge(id) >= 0.0) ==> Demanding(Contenders(s, judge)))
  {
    hide Here, Legal, Filed, Signalled, Contenders, Known, Demanding, Unique;
    var s := Here(v, moves).o.executive.stores;
    RunsStayPrepared(v, moves);
    FiledIsKnown(s, Here(v, moves).ticks);
    if forall id :: judge(id) >= 0.0 {
      Ranges.NumbersStayInRange(v, moves);
      EstimatesDemand(s, judge);
    }
  }

  lemma ConfidencesFound(c: X.Clusters, signature: Signature)
    requires Signalled(c)
    ensures |X.Confidences(c, X.Cluster(c, signature))| == |X.Cluster(c, signature)|
  {
    hide SortedSet;
    SortedSetMembers(X.Members(c, signature), StringLe);
    ProjectTotal(X.Cluster(c, signature), beliefId => Lookup(c.confidence, beliefId));
  }

  /** The look-ups of the Executive's handlers: confidences to aggregate, the pass a completion closes, its group. */
  ghost predicate Prompted(s: X.XState, x: ExecutiveEvent) {
    && (x.GenerationStarted? ==> |X.Confidences(s.clusters, X.Cluster(s.clusters, x.signature))| == |X.Cluster(s.clusters, x.signature)|)
    && (x.GenerationCompleted? ==> X.FirstGeneration(s.stores.generations, x.generationId).Some?
                                   && (x.accepted ==> x.groupId.Some? && x.opportunity.Some?))
  }

  /** No handler of the Executive's raises in any run, live or replaying. */
  lemma ExecutiveNeverRaises(v: Setting, moves: seq<Move>, x: ExecutiveEvent)
    requires Legal(v, moves) && Facing(Here(v, moves), OfExecutive(x))
    ensures Prompted(Here(v, moves).o.executive, x)
  {
    hide Here, Legal, Filed, Signalled, X.Cluster, X.Confidences, X.FirstGeneration, Found, Ordered, Ready, Provenance,
         PendingOnLedger;
    var p := Here(v, moves);
    RunsStayPrepared(v, moves);
    RunsStayInOrder(v, moves);
    LogTurns(p);
    if x.GenerationStarted? { ConfidencesFound(p.o.executive.clusters, x.signature); }
    if x.GenerationCompleted? { PassIsFound(p, x); }
  }

  lemma PassIsFound(p: Point, x: ExecutiveEvent)
    requires InOrder(p) && Facing(p, OfExecutive(x)) && x.GenerationCompleted?
    ensures X.FirstGeneration(p.o.executive.stores.generations, x.generationId).Some?
  {
    hide InOrder;
    HeadIsFound(p);
    GenerationFound(p.o.executive.stores.generations, x.generationId);
  }

  // ---------------------------------------------------------------- the soft stop

  /** Everything that reaches the Executive's research window: deliveries, and batches requested directly. */
  datatype Stimulus = Delivered(e: Event, tick: nat) | Requested(cs: seq<X.Candidate>)

  ghost function Stimulate(n: Notation, s: X.XState, stimulus: Stimulus): Reaction<X.XState> {
    match stimulus
    case Delivered(e, tick) => X.Step(n, s, e, tick)
    case Requested(cs) => X.RequestBatch(n, s, cs)
  }

  ghost function Career(n: Notation, s: X.XState, stimuli: seq<Stimulus>): Reaction<X.XState>
    decreases |stimuli|
  {
    if stimuli == [] then Reaction(s, [])
    else
      var first := Stimulate(n, s, stimuli[0]);
      var rest := Career(n, first.state, stimuli[1..]);
      Reaction(rest.state, first.published + rest.published)
  }

  predicate AsksForResearch(p: Payload) {
    p.OfExecutive? && p.x.ResearchSpendRequested?
  }

  lemma {:induction false} NoneRequested(n: Notation, s: X.XState, cs: seq<X.Candidate>)
    requires !X.ShouldContinue(s.research)
    ensures X.RequestAll(n, s, cs).published == [] && X.RequestAll(n, s, cs).state.research == s.research
    decreases |cs|
  {
    hide By, X.NoteSearch;
    if cs != [] { NoneRequested(n, X.RequestResearch(n, s, cs[0]).state, cs[1..]); }
  }

  lemma StoppedStaysStopped(n: Notation, s: X.XState, stimulus: Stimulus)
    requires !X.ShouldContinue(s.research)
    ensures var r := Stimulate(n, s, stimulus);
            r.state.research.lastRate == s.research.lastRate && forall p <- r.published :: !AsksForResearch(p)
  {
    hide X.RequestAll, X.Seeds, ByWorth, X.Generate, X.Cluster, X.Pursue, X.RegisterBeliefSignal, X.Situation,
         X.FirstGeneration;
    match stimulus
    case Requested(cs) => NoneRequested(n, s, ByWorth(cs, X.PriorityOf));
    case Delivered(e, tick) =>
      match e.body
      case OfKernel(k) => NoneRequested(n, s, ByWorth(X.Seeds(), X.PriorityOf));
      case OfExecutive(x) => if x.GenerationCompleted? { PursuitSearchesNothing(n, x, tick); }
      case _ =>
  }

  lemma PursuitSearchesNothing(n: Notation, x: ExecutiveEvent, tick: nat)
    requires x.GenerationCompleted?
    ensures forall s: X.XState :: x.groupId.Some? && x.opportunity.Some? ==> X.Pursue(n, s, x, tick).state.research == s.research
  {
    hide By;
  }

  /** Once a window has shown too little, no search is ever requested again, whatever happens afterwards. */
  lemma {:induction false} SoftStopIsForever(n: Notation, s: X.XState, stimuli: seq<Stimulus>)
    requires !X.ShouldContinue(s.research)
    ensures !X.ShouldContinue(Career(n, s, stimuli).state.research)
    ensures forall p <- Career(n, s, stimuli).published :: !AsksForResearch(p)
    decreases |stimuli|
  {
    hide Stimulate;
    if stimuli != [] {
      StoppedStaysStopped(n, s, stimuli[0]);
      SoftStopIsForever(n, Stimulate(n, s, stimuli[0]).state, stimuli[1..]);
    }
  }

  // ---------------------------------------------------------------- what a window counts

  predicate Accepts(g: X.Generation) {
    g.accepted == Some(true)
  }

  function Discoveries(s: X.XState): nat {
    Count(s.stores.generations, Accepts)
  }

  function Asked(ps: seq<Payload>): nat {
    Count(ps, AsksForResearch)
  }

  /** The window holds the searches and the acceptances since it began. */
  predicate Holds(r: X.Research, searches: nat, novel: nat) {
    X.ShouldContinue(r) && searches < X.SOFT_STOP_WINDOW_SEARCHES && r.issued == searches && r.novel == novel
  }

  /** A window is too poor exactly when it found nothing. */
  lemma PoorWindow(novel: nat)
    ensures X.Rate(novel, X.SOFT_STOP_WINDOW_SEARCHES) < X.SOFT_STOP_MIN_NOVEL_RATE <==> novel == 0
  {
  }

  lemma OneAsked(n: Notation, s: X.XState, c: X.Candidate)
    requires X.ShouldContinue(s.research)
    ensures var r := X.RequestResearch(n, s, c);
            Asked(r.published) == 1 && r.state.stores == s.stores
            && r.state.research.(pending := s.research.pending) == X.NoteSearch(s.research)
  {
    hide By, Count;
    var p := X.RequestResearch(n, s, c).published;
    assert p == [p[0]];
    CountOne(p[0], AsksForResearch);
  }

  /** A batch that stays within the window is counted in it; one that completes it closes it on what had been found. */
  lemma {:induction false} BatchCounts(n: Notation, s: X.XState, cs: seq<X.Candidate>, searches: nat, novel: nat)
    requires Holds(s.research, searches, novel)
    ensures var r := X.RequestAll(n, s, cs);
            var all := searches + Asked(r.published);
            && Discoveries(r.state) == Discoveries(s)
            && (all < X.SOFT_STOP_WINDOW_SEARCHES ==> Holds(r.state.research, all, novel))
            && (X.SOFT_STOP_WINDOW_SEARCHES <= all < 2 * X.SOFT_STOP_WINDOW_SEARCHES ==> (X.ShouldContinue(r.state.research) <==> novel > 0))
    decreases |cs|
  {
    hide By, Count, X.Rate;
    if cs == [] {
      CountNone([], AsksForResearch);
    } else {
      var first := X.RequestResearch(n, s, cs[0]);
      var rest := X.RequestAll(n, first.state, cs[1..]);
      OneAsked(n, s, cs[0]);
      CountConcat(first.published, rest.published, AsksForResearch);
      if searches + 1 < X.SOFT_STOP_WINDOW_SEARCHES {
        BatchCounts(n, first.state, cs[1..], searches + 1, novel);
      } else {
        PoorWindow(novel);
        if novel > 0 {
          BatchCounts(n, first.state, cs[1..], 0, 0);
        } else {
          NoneRequested(n, first.state, cs[1..]);
          RequestsKeep(n, first.state, cs[1..]);
        }
      }
    }
  }

  lemma NoneAsked(ps: seq<Payload>)
    requires forall p <- ps :: !AsksForResearch(p)
    ensures Asked(ps) == 0
  {
    CountNone(ps, AsksForResearch);
  }

  /** A delivery that asks for nothing counts what it accepts. */
  lemma DeliveryCounts(n: Notation, s: X.XState, e: Event, tick: nat, searches: nat, novel: nat)
    requires Holds(s.research, searches, novel) && !e.body.OfKernel?
    ensures var r := X.Step(n, s, e, tick);
            && Asked(r.published) == 0 && Discoveries(r.state) >= Discoveries(s)
            && Holds(r.state.research, searches, novel + (Discoveries(r.state) - Discoveries(s)))
  {
    hide X.OnGenerationStarted, X.OnGenerationCompleted, X.OnWorldModel, X.Situation, Count, By;
    match e.body
    case OfWorldModel(w) => BeliefAsksNothing(s, w, e.correlation, tick);
    case OfExecutive(x) =>
      if x.GenerationStarted? { StartCounts(n, s, x, e.time, tick); }
      else if x.GenerationCompleted? { CompletionCounts(n, s, x, e.time, tick); } else { NoneAsked([]); }
    case OfGovernor(g) => NoneAsked(X.OnGovernor(s, g).published);
    case _ => NoneAsked([]);
  }

  lemma BeliefAsksNothing(s: X.XState, w: WorldModelEvent, correlation: Correlation, tick: nat)
    ensures var r := X.OnWorldModel(s, w, correlation, tick);
            Asked(r.published) == 0 && r.state.stores == s.stores && r.state.research == s.research
  {
    hide X.Leave, X.ClaimKey, By;
    NoneAsked(X.OnWorldModel(s, w, correlation, tick).published);
  }

  lemma StartCounts(n: Notation, s: X.XState, x: ExecutiveEvent, time: real, tick: nat)
    requires x.GenerationStarted?
    ensures var r := X.OnGenerationStarted(n, s, x, time, tick);
            Asked(r.published) == 0 && Discoveries(r.state) == Discoveries(s) && r.state.research == s.research
  {
    hide X.Cluster, X.Confidences, X.AggregateConfidence, Count, By;
    var beliefIds := X.Cluster(s.clusters, x.signature);
    NoneAsked(X.OnGenerationStarted(n, s, x, time, tick).published);
    CountSnoc(s.stores.generations, X.Started(x, beliefIds, time), Accepts);
  }

  lemma CompletionCounts(n: Notation, s: X.XState, x: ExecutiveEvent, time: real, tick: nat)
    requires x.GenerationCompleted?
    ensures var r := X.OnGenerationCompleted(n, s, x, time, tick);
            && Asked(r.published) == 0 && Discoveries(r.state) >= Discoveries(s)
            && r.state.research == s.research.(novel := s.research.novel + (Discoveries(r.state) - Discoveries(s)))
  {
    hide X.Valued, X.PlanFor, X.FirstGeneration, Count, By;
    NoneAsked(X.OnGenerationCompleted(n, s, x, time, tick).published);
    var first := X.FirstGeneration(s.stores.generations, x.generationId);
    if first.Some? { CountSnoc(s.stores.generations, X.Recorded(x, first.value.started, time), Accepts); }
  }

  lemma StartupCounts(n: Notation, s: X.XState, searches: nat, novel: nat)
    requires Holds(s.research, searches, novel)
    ensures var r := X.OnKernelStarted(n, s);
            var all := searches + Asked(r.published);
            && Discoveries(r.state) == Discoveries(s)
            && (all < X.SOFT_STOP_WINDOW_SEARCHES ==> Holds(r.state.research, all, novel))
            && (X.SOFT_STOP_WINDOW_SEARCHES <= all < 2 * X.SOFT_STOP_WINDOW_SEARCHES ==> (X.ShouldContinue(r.state.research) <==> novel > 0))
  {
    hide X.Seeds, X.RequestAll, Count, By;
    BatchCounts(n, s, ByWorth(X.Seeds(), X.PriorityOf), searches, novel);
    NoneAsked([]);
  }

  lemma StimulusCounts(n: Notation, s: X.XState, stimulus: Stimulus, searches: nat, novel: nat)
    requires Holds(s.research, searches, novel)
    ensures var r := Stimulate(n, s, stimulus);
            var all, found := searches + Asked(r.published), novel + (Discoveries(r.state) - Discoveries(s));
            && Discoveries(r.state) >= Discoveries(s)
            && (all < X.SOFT_STOP_WINDOW_SEARCHES ==> Holds(r.state.research, all, found))
            && (X.SOFT_STOP_WINDOW_SEARCHES <= all < 2 * X.SOFT_STOP_WINDOW_SEARCHES ==> (X.ShouldContinue(r.state.research) <==> found > 0))
  {
    hide X.OnKernelStarted, X.OnOwn, X.OnGovernor, X.OnWorldModel, X.OnOutcomeRecorded, X.RequestAll, Count, By;
    match stimulus
    case Requested(cs) => BatchCounts(n, s, ByWorth(cs, X.PriorityOf), searches, novel);
    case Delivered(e, tick) =>
      if e.body.OfKernel? {
        StartupCounts(n, s, searches, novel);
        NoneAsked([]);
      } else {
        DeliveryCounts(n, s, e, tick, searches, novel);
      }
  }

  lemma {:induction false} WindowCounts(n: Notation, s: X.XState, stimuli: seq<Stimulus>, searches: nat, novel: nat)
    requires Holds(s.research, searches, novel) && searches + Asked(Career(n, s, stimuli).published) < X.SOFT_STOP_WINDOW_SEARCHES
    ensures var r := Career(n, s, stimuli);
            Discoveries(r.state) >= Discoveries(s) && Holds(r.state.research, searches + Asked(r.published), novel + (Discoveries(r.state) - Discoveries(s)))
    decreases |stimuli|
  {
    hide Stimulate, Count;
    if stimuli == [] {
      NoneAsked([]);
    } else {
      var first := Stimulate(n, s, stimuli[0]);
      CountConcat(first.published, Career(n, first.state, stimuli[1..]).published, AsksForResearch);
      StimulusCounts(n, s, stimuli[0], searches, novel);
      WindowCounts(n, first.state, stimuli[1..], searches + Asked(first.published), novel + (Discoveries(first.state) - Discoveries(s)));
    }
  }

  /**
   From the beginning of a window to the stimulus that brings its fifth search (and no tenth): the Executive
   stops searching exactly when not one accepted pass was recorded in between.
   */
  lemma SoftStopMeansNothingNew(n: Notation, s: X.XState, stimuli: seq<Stimulus>, last: Stimulus)
    requires Holds(s.research, 0, 0)
    requires var before := Career(n, s, stimuli);
             Asked(before.published) < X.SOFT_STOP_WINDOW_SEARCHES
             <= Asked(before.published) + Asked(Stimulate(n, before.state, last).published) < 2 * X.SOFT_STOP_WINDOW_SEARCHES
    ensures var after := Stimulate(n, Career(n, s, stimuli).state, last).state;
            !X.ShouldContinue(after.research) <==> Count(after.stores.generations, Accepts) == Count(s.stores.generations, Accepts)
  {
    hide Stimulate, Career, Count;
    var before := Career(n, s, stimuli);
    WindowCounts(n, s, stimuli, 0, 0);
    StimulusCounts(n, before.state, last, Asked(before.published), Discoveries(before.state) - Discoveries(s));
  }
}
