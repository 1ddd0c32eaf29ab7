/** What a pass decides, and that a resolved situation is not pursued again while alive. */
module Novelty {
  import opened Prelude
  import opened Ordering
  import opened Rounding
  import opened Events
  import opened Rules
  import opened KernelModel
  import opened Organism
  import opened Runs
  import opened Identities
  import A = Authority
  import C = Causality
  import Custody
  import P = PerceptionModel
  import W = WorldModelModel
  import X = ExecutiveModel
  import G = GovernorModel
  import T = ExecutorModel
  import M = MemoryModel
  import R = Ranking

  // ---------------------------------------------------------------- what one pass decides

  function Cluster(c: X.Clusters, s: Signature): set<string> {
    if s in c.members then c.members[s] else {}
  }

  /** The cluster differs from the one an opportunity was last made of, and its situation is not resolved. */
  predicate Novel(c: X.Clusters, s: Signature, beliefIds: seq<string>) {
    !(s in c.generated && c.generated[s] == beliefIds) && s !in c.resolved
  }

  predicate Completion(p: Payload, x: ExecutiveEvent, beliefIds: seq<string>, accepted: bool)
    requires x.GenerationStarted?
  {
    && p.OfExecutive? && p.x.GenerationCompleted? && p.x.generationId == x.generationId && p.x.signature == x.signature
    && p.x.beliefIds == beliefIds && p.x.accepted == accepted
  }

  function Why(c: X.Clusters, s: Signature, beliefIds: seq<string>): Phrase {
    if beliefIds == [] then Stale
    else if s in c.generated && c.generated[s] == beliefIds then Duplicate
    else if s in c.resolved then NotNovel
    else Phrase.Novel
  }

  /**
   A pass looks at its cluster in belief-id order. It is accepted exactly when some belief is left there, the cluster is not the
   one last accepted, and the situation is not resolved; an acceptance is remembered at once, and nothing else is.
   */
  lemma PassIsDecided(n: Notation, s: X.XState, x: ExecutiveEvent, time: real, tick: nat, beliefIds: seq<string>)
    requires x.GenerationStarted? && Sorted(beliefIds, StringLe) && multiset(beliefIds) == multiset(Cluster(s.clusters, x.signature))
    requires forall b <- beliefIds :: b in s.clusters.confidence
    ensures var c, r := s.clusters, X.OnGenerationStarted(n, s, x, time, tick);
            var c', accepted := r.state.clusters, beliefIds != [] && Novel(c, x.signature, beliefIds);
            && |r.published| == 1 && Completion(r.published[0], x, beliefIds, accepted)
            && r.published[0].x.reason == n.say(Why(c, x.signature, beliefIds))
            && r.published[0].x.groupId.Some? == accepted && r.published[0].x.opportunity.Some? == accepted
            && (accepted && x.signature in c.groupOf ==> r.published[0].x.groupId == Some(c.groupOf[x.signature]))
            && c' == (if accepted then c.(groupOf := c.groupOf[x.signature := r.published[0].x.groupId.value], generated := c.generated[x.signature := beliefIds]) else c)
  {
    hide X.AggregateConfidence, By, SortedSet, Project;
    StringOrder();
    SortedSetUnique(Cluster(s.clusters, x.signature), beliefIds, StringLe);
    assert X.Cluster(s.clusters, x.signature) == beliefIds;
    AllHaveConfidence(s.clusters, beliefIds);
  }

  lemma AllHaveConfidence(c: X.Clusters, beliefIds: seq<string>)
    requires forall b <- beliefIds :: b in c.confidence
    ensures |X.Confidences(c, beliefIds)| == |beliefIds|
  {
    ProjectTotal(beliefIds, (b: string) => Lookup(c.confidence, b));
  }

  // ---------------------------------------------------------------- plans and opportunities have their own ids

  function PlanName(p: Payload): Option<Id> {
    if p.OfExecutive? && p.x.PlanProposed? then Some(p.x.planId) else None
  }

  /** An accepted pass is known by the opportunity it names. */
  function OpportunityName(p: Payload): Option<Id> {
    if p.OfExecutive? && p.x.GenerationCompleted? && p.x.accepted then p.x.opportunity else None
  }

  lemma GenerateNames(n: Notation, c: X.Clusters, x: ExecutiveEvent, beliefIds: seq<string>, tick: nat)
    requires x.GenerationStarted?
    ensures var ps := X.Generate(n, c, x, beliefIds, tick).published;
            |ps| <= 1 && forall p <- ps :: PlanName(p) == None && (OpportunityName(p).Some? ==> Just(OpportunityName(p).value, tick))
  {
    hide X.Confidences, X.AggregateConfidence, By;
  }

  /** The plans proposed among some publications. */
  function PlansIn(ps: seq<Payload>): seq<Id> { Project(ps, PlanName) }

  predicate SameMemory(s: X.XState, s': X.XState) {
    s'.stores.plans == s.stores.plans && s'.clusters.ofOpportunity == s.clusters.ofOpportunity && s'.clusters.resolved == s.clusters.resolved
  }

  /** A plan of this id was made, for this opportunity, in this situation. */
  predicate Makes(s: X.XState, s': X.XState, id: Id, opportunity: Id, signature: Signature) {
    && |s'.stores.plans| == |s.stores.plans| + 1 && s.stores.plans <= s'.stores.plans
    && s'.stores.plans[|s.stores.plans|].id == id && s'.stores.plans[|s.stores.plans|].opportunityId == opportunity
    && s'.clusters.ofOpportunity == s.clusters.ofOpportunity[opportunity := signature] && s'.clusters.resolved == s.clusters.resolved
  }

  /** Plans are made of accepted passes only, one each, and situations resolved by outcomes only. */
  ghost predicate Effects(s: X.XState, body: Payload, r: Reaction<X.XState>, tick: nat) {
    if PlansIn(r.published) != [] then
      && body.OfExecutive? && body.x.GenerationCompleted? && OpportunityName(body).Some?
      && |PlansIn(r.published)| == 1 && Just(PlansIn(r.published)[0], tick)
      && Makes(s, r.state, PlansIn(r.published)[0], OpportunityName(body).value, body.x.signature)
    else if body.OfMemory? && body.m.OutcomeRecorded? then
      && r.state.stores.plans == s.stores.plans && r.state.clusters.ofOpportunity == s.clusters.ofOpportunity
      && r.state.clusters.resolved == s.clusters.resolved + (match X.Situation(s, body.m.planId) case None => {} case Some(signature) => {signature})
    else SameMemory(s, r.state)
  }

  lemma PursuitMakes(n: Notation, s: X.XState, x: ExecutiveEvent, tick: nat)
    requires x.GenerationCompleted? && x.accepted && x.groupId.Some? && x.opportunity.Some?
    ensures var r := X.Pursue(n, s, x, tick);
            PlansIn(r.published) == [Minted(tick, Executive, [2])] && Makes(s, r.state, Minted(tick, Executive, [2]), x.opportunity.value, x.signature)
  {
    hide Round4, By, Project;
    var ps := X.Pursue(n, s, x, tick).published;
    assert ps == [ps[0], ps[1]] + [ps[2]];
    ProjectNothing([ps[0], ps[1]], PlanName);
    ProjectSnoc([ps[0], ps[1]], ps[2], PlanName);
    assert PlanName(ps[2]) == Some(Minted(tick, Executive, [2]));
  }

  lemma CompletionHasEffects(n: Notation, s: X.XState, x: ExecutiveEvent, time: real, tick: nat)
    requires x.GenerationCompleted?
    ensures Effects(s, OfExecutive(x), X.OnGenerationCompleted(n, s, x, time, tick), tick)
  {
    hide X.Pursue, X.Recorded, By, Project;
    ProjectNothing([], PlanName);
    forall s: X.XState | x.accepted && x.groupId.Some? && x.opportunity.Some?
      ensures PlansIn(X.Pursue(n, s, x, tick).published) == [Minted(tick, Executive, [2])]
              && Makes(s, X.Pursue(n, s, x, tick).state, Minted(tick, Executive, [2]), x.opportunity.value, x.signature) {
      PursuitMakes(n, s, x, tick);
    }
  }

  lemma StartHasEffects(n: Notation, s: X.XState, x: ExecutiveEvent, time: real, tick: nat)
    requires x.GenerationStarted?
    ensures Effects(s, OfExecutive(x), X.OnGenerationStarted(n, s, x, time, tick), tick)
  {
    hide X.Cluster, X.Started, By, Project;
    GenerateNames(n, s.clusters, x, X.Cluster(s.clusters, x.signature), tick);
    GenerateRemembers(n, s.clusters, x, X.Cluster(s.clusters, x.signature), tick);
    hide X.Generate;
    ProjectNothing(X.OnGenerationStarted(n, s, x, time, tick).published, PlanName);
  }

  lemma GenerateRemembers(n: Notation, c: X.Clusters, x: ExecutiveEvent, beliefIds: seq<string>, tick: nat)
    requires x.GenerationStarted?
    ensures var c' := X.Generate(n, c, x, beliefIds, tick).state; c'.ofOpportunity == c.ofOpportunity && c'.resolved == c.resolved
  {
    hide X.Confidences, X.AggregateConfidence, By;
  }

  lemma {:induction false} RequestsRemember(n: Notation, s: X.XState, cs: seq<X.Candidate>)
    ensures var r := X.RequestAll(n, s, cs); SameMemory(s, r.state) && forall p <- r.published :: PlanName(p) == None && OpportunityName(p) == None
    decreases |cs|
  {
    hide By;
    if cs != [] { RequestsRemember(n, X.RequestResearch(n, s, cs[0]).state, cs[1..]); }
  }

  /** What other events lead the Executive to publish names no plan and no opportunity. */
  lemma OthersRemember(n: Notation, s: X.XState, e: Event, tick: nat)
    requires !e.body.OfExecutive? && !e.body.OfMemory?
    ensures var r := X.Step(n, s, e, tick);
            SameMemory(s, r.state) && forall p <- r.published :: PlanName(p) == None && OpportunityName(p) == None
  {
    hide X.RequestAll, X.Seeds, X.ClaimKey, X.Leave, By;
    if e.body.OfKernel? { RequestsRemember(n, s, R.ByWorth(X.Seeds(), X.PriorityOf)); }
  }

  lemma ExecutiveEffects(n: Notation, s: X.XState, e: Event, tick: nat)
    ensures Effects(s, e.body, X.Step(n, s, e, tick), tick)
  {
    hide X.OnGenerationStarted, X.OnGenerationCompleted, X.OnKernelStarted, X.OnWorldModel, X.OnGovernor, X.Situation, Project, By;
    ProjectNothing([], PlanName);
    match e.body
    case OfExecutive(x) =>
      if x.GenerationStarted? { StartHasEffects(n, s, x, e.time, tick); }
      else if x.GenerationCompleted? { CompletionHasEffects(n, s, x, e.time, tick); }
    case OfMemory(m) =>
    case _ => OthersRemember(n, s, e, tick); ProjectNothing(X.Step(n, s, e, tick).published, PlanName);
  }

  // ---------------------------------------------------------------- over whole runs

  ghost predicate MadeOf(past: seq<Payload>, plan: X.Plan) {
    exists k: nat :: k < |past| && OpportunityName(past[k]) == Some(plan.opportunityId)
  }

  /** Every plan held was minted before, and made of an accepted pass that is past. */
  ghost predicate PlansKnown(s: X.XState, past: seq<Payload>, ticks: nat) {
    forall plan <- s.stores.plans :: MintedBefore(plan.id, ticks) && MadeOf(past, plan)
  }

  ghost predicate Named(p: Point) {
    && Own(Log(p), OpportunityName) && Earlier(Log(p), OpportunityName, p.ticks) && Earlier(Log(p), PlanName, p.ticks)
    && PlansKnown(p.o.executive, p.past, p.ticks)
  }

  lemma ExecutiveNamesOne(n: Notation, s: X.XState, e: Event, tick: nat)
    ensures One(X.Step(n, s, e, tick).published, OpportunityName, tick)
  {
    hide X.Generate, X.Cluster, X.Pursue, X.OnKernelStarted, X.OnWorldModel, X.OnGovernor, X.OnOutcomeRecorded, X.FirstGeneration, X.Situation, By;
    var ps := X.Step(n, s, e, tick).published;
    match e.body
    case OfExecutive(x) =>
      if x.GenerationStarted? {
        GenerateNames(n, s.clusters, x, X.Cluster(s.clusters, x.signature), tick);
      } else if x.GenerationCompleted? && x.groupId.Some? && x.opportunity.Some? {
        PursuitNames(n, x, tick);
      }
    case OfMemory(m) =>
    case _ => OthersRemember(n, s, e, tick); NoneOrOne(ps, OpportunityName, tick);
  }

  lemma PursuitNames(n: Notation, x: ExecutiveEvent, tick: nat)
    requires x.GenerationCompleted? && x.groupId.Some? && x.opportunity.Some?
    ensures forall s: X.XState, p :: p in X.Pursue(n, s, x, tick).published ==> OpportunityName(p) == None
  {
    hide X.Valued, X.PlanFor, By;
  }

  /** The Executive's publications stand together among all the publications of a delivery. */
  lemma ExecutivesPart(v: Setting, o: OState, e: Event, tick: nat) returns (before: seq<Payload>, after: seq<Payload>)
    ensures Publications(v, o, e, tick) == before + X.Step(Text(v), o.executive, e, tick).published + after
    ensures forall p <- before + after :: !p.OfExecutive?
  {
    hide P.Step, W.Step, X.Step, G.Step, T.Step, M.Step;
    EachPublishesItsOwn(v, o, e, tick);
    before := P.Step(o.perception, e).published + W.Step(o.worldModel, e).published;
    after := G.Step(v.governor, o.governor, e, tick).published + T.Step(Text(v), v.behaviour, o.executor, e, tick).published
             + M.Step(Text(v), o.memory, e, tick).published;
    assert Publications(v, o, e, tick) == before + X.Step(Text(v), o.executive, e, tick).published + after;
  }

  /** All of a delivery's plans are the Executive's. */
  lemma DeliveryNames(v: Setting, o: OState, e: Event, tick: nat)
    ensures var ps := Publications(v, o, e, tick);
            && One(ps, OpportunityName, tick)
            && PlansIn(ps) == PlansIn(X.Step(Text(v), o.executive, e, tick).published)
            && forall p <- ps :: PlanName(p).Some? ==> PlanName(p).value in PlansIn(ps)
  {
    hide X.Step, Publications, One, Project;
    var before, after := ExecutivesPart(v, o, e, tick);
    var own := X.Step(Text(v), o.executive, e, tick).published;
    ExecutiveNamesOne(Text(v), o.executive, e, tick);
    OneAmong(before, own, after, OpportunityName, tick);
    ProjectConcat(before + own, after, PlanName);
    ProjectConcat(before, own, PlanName);
    assert forall p <- before :: p in before + after;
    assert forall p <- after :: p in before + after;
    ProjectNothing(before, PlanName);
    ProjectNothing(after, PlanName);
    var ps := before + own + after;
    forall p | p in ps && PlanName(p).Some? ensures PlanName(p).value in PlansIn(ps) {
      var i: nat :| i < |ps| && ps[i] == p;
      ProjectMember(ps, PlanName, i);
    }
  }

  lemma DeliveryEarlier(v: Setting, o: OState, e: Event, ticks: nat, log: seq<Payload>, n: nat)
    requires Earlier(log, PlanName, ticks)
    ensures Earlier(log + Publications(v, o, e, ticks), PlanName, ticks + 1) && Earlier(log + Taken(Publications(v, o, e, ticks), n), PlanName, ticks + 1)
  {
    hide X.Step, Publications, X.Situation;
    DeliveryNames(v, o, e, ticks);
    ExecutiveEffects(Text(v), o.executive, e, ticks);
    var ps := Publications(v, o, e, ticks);
    forall p | p in ps && PlanName(p).Some? ensures Just(PlanName(p).value, ticks) {}
    assert forall p <- Taken(ps, n) :: p in ps;
  }

  lemma PlansStayKnown(s: X.XState, body: Payload, r: Reaction<X.XState>, past: seq<Payload>, ticks: nat)
    requires PlansKnown(s, past, ticks) && Effects(s, body, r, ticks)
    ensures PlansKnown(r.state, past + [body], ticks + 1)
  {
    hide X.Situation, Project;
    forall plan | plan in r.state.stores.plans ensures MintedBefore(plan.id, ticks + 1) && MadeOf(past + [body], plan) {
      if plan in s.stores.plans {
        var k: nat :| k < |past| && OpportunityName(past[k]) == Some(plan.opportunityId);
        assert (past + [body])[k] == past[k];
      } else {
        assert r.state.stores.plans == s.stores.plans + [r.state.stores.plans[|s.stores.plans|]];
        assert (past + [body])[|past|] == body;
      }
    }
  }

  lemma PastGrows(s: X.XState, past: seq<Payload>, more: seq<Payload>, ticks: nat)
    requires PlansKnown(s, past, ticks)
    ensures PlansKnown(s, past + more, ticks)
  {
    forall plan | plan in s.stores.plans ensures MadeOf(past + more, plan) {
      var k: nat :| k < |past| && OpportunityName(past[k]) == Some(plan.opportunityId);
      assert (past + more)[k] == past[k];
    }
  }

  lemma NoPlans(past: seq<Payload>, ticks: nat)
    ensures PlansKnown(X.Initial(), past, ticks)
  {
  }

  lemma DeliveryKeepsNames(v: Setting, p: Point, e: Event, n: nat)
    requires Named(p) && p.queue != [] && HeadIs(p, e)
    ensures Named(Moved(v, p, e)) && Named(Torn(v, p, e, n)) && Named(Heard(v, p, e)) && Named(Dropped(p))
  {
    hide Publications, X.Step, Own, Earlier, PlansKnown, One, Effects, P.Step, W.Step, G.Step, T.Step, M.Step, Project;
    var pubs, log := Publications(v, p.o, e, p.ticks), Log(p);
    LogTurns(p);
    DeliveryNames(v, p.o, e, p.ticks);
    DeliveryEarlier(v, p.o, e, p.ticks, log, n);
    OneSoFar(pubs, n, OpportunityName, p.ticks);
    OwnGrows(log, pubs, OpportunityName, p.ticks);
    OwnGrows(log, Taken(pubs, n), OpportunityName, p.ticks);
    Later(log, OpportunityName, p.ticks);
    Later(log, PlanName, p.ticks);
    ExecutiveEffects(Text(v), p.o.executive, e, p.ticks);
    PlansStayKnown(p.o.executive, e.body, X.Step(Text(v), p.o.executive, e, p.ticks), p.past, p.ticks);
    PastGrows(p.o.executive, p.past, [p.queue[0]], p.ticks);
    NoPlans([], p.ticks + 1);
    assert Log(Moved(v, p, e)) == log + pubs;
    assert Log(Torn(v, p, e, n)) == log + Taken(pubs, n);
    assert Log(Heard(v, p, e)) == log && Log(Dropped(p)) == log;
  }

  lemma EnteringKeepsNames(p: Point, body: Payload)
    requires Named(p) && Outside(p.o, body)
    ensures Named(Entered(p, body))
  {
    hide PlansKnown;
    OwnStays(Log(p), body, OpportunityName, p.ticks);
    assert Log(Entered(p, body)) == Log(p) + [body];
  }

  lemma StepKeepsNames(v: Setting, p: Point, move: Move, e: Event)
    requires Named(p) && Possible(p, move) && HeadIs(p, e)
    ensures Named(Stepped(v, p, move, e))
  {
    hide Named, Moved, Heard, Torn, Dropped, Outside, Reconfigures;
    match move
    case Enter(body, _) => EnteringKeepsNames(p, body);
    case Next => DeliveryKeepsNames(v, p, e, 0);
    case Drop => DeliveryKeepsNames(v, p, e, 0);
    case Reboot => RebootingKeepsNames(p);
    case Tear(n) => DeliveryKeepsNames(v, p, e, n);
    case Hear => DeliveryKeepsNames(v, p, e, 0);
    case Configure(o) => ConfiguringKeepsNames(p, o);
  }

  lemma RebootingKeepsNames(p: Point)
    requires Named(p)
    ensures Named(Rebooted(p))
  {
    hide Own, Earlier;
    NoPlans([], p.ticks);
    assert Log(Rebooted(p)) == Log(p);
  }

  lemma ConfiguringKeepsNames(p: Point, o: OState)
    requires Named(p) && Reconfigures(p.o, o)
    ensures Named(Configured(p, o))
  {
    hide Own, Earlier, BeliefsInRange;
    assert Log(Configured(p, o)) == Log(p);
  }

  lemma NothingNamed()
    ensures Named(Birth())
  {
  }

  lemma RunsKeepNames(v: Setting, moves: seq<Move>)
    requires Legal(v, moves)
    ensures Named(Here(v, moves))
  {
    hide Reached, Legal, Loses, Named, Possible, Affords, Stepped;
    var inv := (p: Point) => Named(p);
    NothingNamed();
    forall p, move, e: Event | inv(p) && Possible(p, move) && HeadIs(p, e)
      ensures inv(Stepped(v, p, move, e)) {
      StepKeepsNames(v, p, move, e);
    }
    LosesAnything(v, moves);
    RunsKeep(v, moves, AnyLoss, inv);
  }

  // ---------------------------------------------------------------- what a process has resolved, told from its own life

  /** The situation of each plan proposed in this process, and the situations of those an outcome was recorded for since. */
  datatype Track = Track(pursued: map<Id, Signature>, resolved: set<Signature>)

  const NOTHING := Track(map[], {})

  /** One live dispatch and what it published: a plan proposed is of the accepted pass's situation; an outcome resolves its plan's. */
  function Noted(t: Track, body: Payload, published: seq<Payload>): Track {
    if body.OfExecutive? && body.x.GenerationCompleted? && PlansIn(published) != []
    then t.(pursued := t.pursued[PlansIn(published)[0] := body.x.signature])
    else if body.OfMemory? && body.m.OutcomeRecorded? && body.m.planId in t.pursued
    then t.(resolved := t.resolved + {t.pursued[body.m.planId]})
    else t
  }

  /** Only live dispatches of the process that is running count: its death is the end of it. */
  ghost function Tracked(v: Setting, moves: seq<Move>): Track {
    hide Publications, Noted;
    if moves == [] then NOTHING
    else
      var before, l := moves[..|moves| - 1], Reached(v, moves[..|moves| - 1]);
      match moves[|moves| - 1]
      case Next => Noted(Tracked(v, before), HeadEvent(l).body, Publications(v, l.m.state, HeadEvent(l), l.m.ticks))
      case Reboot => NOTHING
      case Tear(_) => NOTHING
      case _ => Tracked(v, before)
  }

  ghost predicate Follows(p: Point, t: Track) {
    && p.o.executive.clusters.resolved == t.resolved
    && (forall q <- Log(p) :: PlanName(q).Some? ==> X.Situation(p.o.executive, PlanName(q).value) == Lookup(t.pursued, PlanName(q).value))
    && (forall plan <- t.pursued :: ProposedOn(Log(p), plan))
    && (p.replaying ==> t == NOTHING)
  }

  /** Another plan's situation is what it was. */
  lemma OthersKeepSituation(s: X.XState, s': X.XState, id: Id, opportunity: Id, signature: Signature, plan: Id)
    requires Makes(s, s', id, opportunity, signature) && plan != id && forall q <- s.stores.plans :: q.opportunityId != opportunity
    ensures X.Situation(s', plan) == X.Situation(s, plan)
  {
    var made := s'.stores.plans[|s.stores.plans|];
    assert s'.stores.plans == s.stores.plans + [made];
    LatestSnoc(s.stores.plans, made, X.PlanId);
    LatestMember(s.stores.plans, X.PlanId, plan);
  }

  lemma MadeHasSituation(s: X.XState, s': X.XState, id: Id, opportunity: Id, signature: Signature)
    requires Makes(s, s', id, opportunity, signature)
    ensures X.Situation(s', id) == Some(signature)
  {
    var made := s'.stores.plans[|s.stores.plans|];
    assert s'.stores.plans == s.stores.plans + [made];
    LatestSnoc(s.stores.plans, made, X.PlanId);
  }

  /** No plan held was made of the accepted pass dispatched next. */
  lemma HeadIsFresh(p: Point, opportunity: Id)
    requires Named(p) && p.queue != [] && OpportunityName(p.queue[0]) == Some(opportunity)
    ensures forall q <- p.o.executive.stores.plans :: q.opportunityId != opportunity
  {
    var log := Log(p);
    assert log[|p.past|] == p.queue[0];
    forall q | q in p.o.executive.stores.plans ensures q.opportunityId != opportunity {
      assert MadeOf(p.past, q);
      var k: nat :| k < |p.past| && OpportunityName(p.past[k]) == Some(q.opportunityId);
      assert log[k] == p.past[k];
    }
  }

  /** The situations of the plans on the log are as they were, and that of a plan just proposed is the pass's. */
  ghost predicate Situated(s: X.XState, s': X.XState, log: seq<Payload>, plans: seq<Id>, body: Payload) {
    && (forall q <- log :: PlanName(q).Some? ==> X.Situation(s', PlanName(q).value) == X.Situation(s, PlanName(q).value) && PlanName(q).value !in plans)
    && (plans != [] ==> |plans| == 1 && body.OfExecutive? && body.x.GenerationCompleted? && X.Situation(s', plans[0]) == Some(body.x.signature)
                        && s'.clusters.resolved == s.clusters.resolved)
    && (plans == [] ==> s'.clusters.resolved == s.clusters.resolved
                        + if body.OfMemory? && body.m.OutcomeRecorded?
                          then (match X.Situation(s, body.m.planId) case None => {} case Some(signature) => {signature}) else {})
  }

  lemma SituationsAfter(v: Setting, p: Point, e: Event)
    requires Named(p) && p.queue != [] && HeadIs(p, e)
    ensures Situated(p.o.executive, Successor(v, p.o, e, p.ticks).executive, Log(p), PlansIn(Publications(v, p.o, e, p.ticks)), e.body)
  {
    hide Publications, X.Step, X.Situation, P.Step, W.Step, G.Step, T.Step, M.Step, Own, PlansKnown, Project, Makes;
    DeliveryNames(v, p.o, e, p.ticks);
    var s, r := p.o.executive, X.Step(Text(v), p.o.executive, e, p.ticks);
    ExecutiveEffects(Text(v), s, e, p.ticks);
    var plans := PlansIn(r.published);
    if plans != [] {
      var opportunity := OpportunityName(e.body).value;
      HeadIsFresh(p, opportunity);
      MadeHasSituation(s, r.state, plans[0], opportunity, e.body.x.signature);
      forall q | q in Log(p) && PlanName(q).Some? ensures X.Situation(r.state, PlanName(q).value) == X.Situation(s, PlanName(q).value) {
        assert MintedBefore(PlanName(q).value, p.ticks);
        OthersKeepSituation(s, r.state, plans[0], opportunity, e.body.x.signature, PlanName(q).value);
      }
      assert Makes(s, r.state, plans[0], opportunity, e.body.x.signature) ==> r.state.clusters.resolved == s.clusters.resolved by { MakingResolvesNothing(s, r.state, plans[0], opportunity, e.body.x.signature); }
    } else {
      forall plan ensures X.Situation(r.state, plan) == X.Situation(s, plan) { SameSituation(s, r.state, plan); }
    }
  }

  lemma MakingResolvesNothing(s: X.XState, s': X.XState, id: Id, opportunity: Id, signature: Signature)
    ensures Makes(s, s', id, opportunity, signature) ==> s'.clusters.resolved == s.clusters.resolved
  {
  }

  lemma SameSituation(s: X.XState, s': X.XState, plan: Id)
    requires s'.stores.plans == s.stores.plans && s'.clusters.ofOpportunity == s.clusters.ofOpportunity
    ensures X.Situation(s', plan) == X.Situation(s, plan)
  {
  }

  ghost predicate ProposedOn(log: seq<Payload>, plan: Id) {
    exists q <- log :: PlanName(q) == Some(plan)
  }

  /** Whatever plan an outcome on the log is of was proposed on the log. */
  lemma OutcomeWasProposed(v: Setting, moves: seq<Move>, i: nat, action: Id, plan: Id)
    requires Legal(v, moves) && IsOutcome(Log(Here(v, moves)), i, action, plan)
    ensures ProposedOn(Log(Here(v, moves)), plan)
  {
    hide Here, Legal, C.Orders, C.Justified, A.Authorised, A.Traced, A.Escalations, C.Approves;
    var log, p := Log(Here(v, moves)), Here(v, moves);
    C.RunsStayJustified(v, moves);
    A.RunsStayAccountable(v, moves);
    Custody.ActionsAreAuthorised(v, moves, i, action, plan);
    assert Custody.Ordered(log, i + 1, action, plan);
    var g: nat :| A.Authorised(log, g, plan);
    AuthorityWasProposed(log, p.o.governor.pendingEscalations, p.ticks, g, plan);
  }

  lemma AuthorityWasProposed(log: seq<Payload>, pending: map<Id, G.Escalation>, ticks: nat, g: nat, plan: Id)
    requires C.Justified(log) && A.Escalations(log, pending, ticks) && A.Authorised(log, g, plan)
    ensures ProposedOn(log, plan)
  {
    hide C.Justified, ProposedOn, A.Distinct;
    if j: nat, k: nat :| j < k < g <= |log| && A.PassesPlan(log[j], plan) && A.CoversPlan(log[k], plan) {
      PolicyWasProposed(log, j, plan);
    } else {
      var j: nat :| j < g <= |log| && A.OwnerApproves(log[j], plan);
      assert log[j] in log && A.EscalatedFor(log, log[j].g.escalationId, plan);
      var q :| q in log && A.Creates(q) && q.g.planId == plan;
      var k: nat :| k < |log| && log[k] == q;
      EscalationWasProposed(log, k);
    }
  }

  predicate IsOutcome(log: seq<Payload>, i: nat, action: Id, plan: Id) {
    i < |log| && C.Records(log[i], action, plan)
  }

  lemma PolicyWasProposed(log: seq<Payload>, j: nat, plan: Id)
    requires C.Justified(log) && j < |log| && A.PassesPlan(log[j], plan)
    ensures ProposedOn(log, plan)
  {
    assert C.CausedBefore(log, j, log[j]);
    var k: nat :| k < j && k < |log| && C.Causes(log[k], log[j]);
    assert log[k] in log && PlanName(log[k]) == Some(plan);
  }

  lemma EscalationWasProposed(log: seq<Payload>, j: nat)
    requires C.Justified(log) && j < |log| && A.Creates(log[j])
    ensures ProposedOn(log, log[j].g.planId)
  {
    assert C.CausedBefore(log, j, log[j]);
    var k: nat :| k < j && k < |log| && C.Causes(log[k], log[j]);
    assert log[k] in log && PlanName(log[k]) == Some(log[j].g.planId);
  }

  /** The outcome dispatched next is of a plan the log proposes. */
  ghost predicate HeadProposed(p: Point) {
    p.queue != [] && p.queue[0].OfMemory? && p.queue[0].m.OutcomeRecorded? ==> ProposedOn(Log(p), p.queue[0].m.planId)
  }

  lemma RunsPropose(v: Setting, moves: seq<Move>)
    requires Legal(v, moves)
    ensures HeadProposed(Here(v, moves))
  {
    hide Here, Legal, ProposedOn;
    var p := Here(v, moves);
    if p.queue != [] && p.queue[0].OfMemory? && p.queue[0].m.OutcomeRecorded? {
      assert Log(p)[|p.past|] == p.queue[0];
      OutcomeWasProposed(v, moves, |p.past|, p.queue[0].m.actionId, p.queue[0].m.planId);
    }
  }

  lemma ProposedStill(log: seq<Payload>, more: seq<Payload>, plan: Id)
    requires ProposedOn(log, plan) || plan in PlansIn(more)
    ensures ProposedOn(log + more, plan)
  {
    if q :| q in log && PlanName(q) == Some(plan) {
      assert q in log + more;
    } else {
      var i := ProjectOrigin(more, PlanName, plan);
      assert more[i] in log + more;
    }
  }

  lemma PursuedStayProposed(t: Track, log: seq<Payload>, body: Payload, pubs: seq<Payload>)
    requires forall plan <- t.pursued :: ProposedOn(log, plan)
    ensures forall plan <- Noted(t, body, pubs).pursued :: ProposedOn(log + pubs, plan)
  {
    hide ProposedOn, PlansIn;
    forall plan | plan in Noted(t, body, pubs).pursued ensures ProposedOn(log + pubs, plan) { ProposedStill(log, pubs, plan); }
  }

  lemma SituationsFollow(s: X.XState, s': X.XState, log: seq<Payload>, pubs: seq<Payload>, t: Track, body: Payload)
    requires s.clusters.resolved == t.resolved && Situated(s, s', log, PlansIn(pubs), body)
    requires forall q <- log :: PlanName(q).Some? ==> X.Situation(s, PlanName(q).value) == Lookup(t.pursued, PlanName(q).value)
    requires forall q <- pubs :: PlanName(q).Some? ==> PlanName(q).value in PlansIn(pubs)
    requires body.OfMemory? && body.m.OutcomeRecorded? ==> ProposedOn(log, body.m.planId)
    ensures var t' := Noted(t, body, pubs);
            && s'.clusters.resolved == t'.resolved
            && forall q <- log + pubs :: PlanName(q).Some? ==> X.Situation(s', PlanName(q).value) == Lookup(t'.pursued, PlanName(q).value)
  {
    hide X.Situation, PlansIn;
    if PlansIn(pubs) == [] && body.OfMemory? && body.m.OutcomeRecorded? {
      var q :| q in log && PlanName(q) == Some(body.m.planId);
    }
  }

  lemma NextFollows(v: Setting, p: Point, e: Event, t: Track)
    requires Named(p) && Follows(p, t) && HeadProposed(p) && p.queue != [] && !p.replaying && HeadIs(p, e)
    ensures Follows(Moved(v, p, e), Noted(t, e.body, Publications(v, p.o, e, p.ticks)))
  {
    hide Publications, Successor, Named, X.Situation, PlansIn, Situated, ProposedOn, One, Noted;
    var pubs := Publications(v, p.o, e, p.ticks);
    SituationsAfter(v, p, e);
    DeliveryNames(v, p.o, e, p.ticks);
    LogTurns(p);
    assert Log(Moved(v, p, e)) == Log(p) + pubs;
    PursuedStayProposed(t, Log(p), e.body, pubs);
    SituationsFollow(p.o.executive, Successor(v, p.o, e, p.ticks).executive, Log(p), pubs, t, e.body);
  }

  lemma HearFollows(v: Setting, p: Point, e: Event, t: Track)
    requires Named(p) && Follows(p, t) && HeadProposed(p) && p.queue != [] && p.replaying && HeadIs(p, e)
    ensures Follows(Heard(v, p, e), t)
  {
    hide Publications, Successor, Named, X.Situation, Project;
    SituationsAfter(v, p, e);
    LogTurns(p);
    assert Log(Heard(v, p, e)) == Log(p);
    if e.body.OfMemory? && e.body.m.OutcomeRecorded? {
      var q :| q in Log(p) && PlanName(q) == Some(e.body.m.planId);
    }
  }

  lemma EnteringFollows(p: Point, t: Track, body: Payload)
    requires Follows(p, t) && !p.replaying && Outside(p.o, body)
    ensures Follows(Entered(p, body), t)
  {
    hide ProposedOn, X.Situation, P.InRange;
    forall plan | plan in t.pursued ensures ProposedOn(Log(p) + [body], plan) { ProposedStill(Log(p), [body], plan); }
    assert Log(Entered(p, body)) == Log(p) + [body];
  }

  lemma ConfiguringFollows(p: Point, t: Track, o: OState)
    requires Follows(p, t) && Reconfigures(p.o, o)
    ensures Follows(Configured(p, o), t)
  {
    hide ProposedOn, BeliefsInRange, X.Situation;
    forall plan ensures X.Situation(o.executive, plan) == X.Situation(p.o.executive, plan) { SameSituation(p.o.executive, o.executive, plan); }
  }

  /** What no dispatch brings about leaves the track as it is, or ends it. */
  lemma OthersFollow(v: Setting, p: Point, e: Event, t: Track, move: Move)
    requires Follows(p, t) && Possible(p, move) && HeadIs(p, e) && !move.Next? && !move.Hear?
    ensures Follows(Stepped(v, p, move, e), if move.Reboot? || move.Tear? then NOTHING else t)
  {
    hide Publications, Successor, X.Situation, Outside, Reconfigures, ProposedOn;
    match move
    case Enter(body, _) => EnteringFollows(p, t, body);
    case Drop => LogTurns(p); assert Log(Dropped(p)) == Log(p);
    case Configure(o) => ConfiguringFollows(p, t, o);
    case _ => NothingIsSituated();
  }

  lemma NothingIsSituated()
    ensures forall plan :: X.Situation(X.Initial(), plan) == None
  {
  }

  /**
   In every run: what the Executive holds resolved is exactly the situations of the plans proposed in the life of the running
   process and followed, in that life, by an outcome. Replay resolves nothing: it mints its plans anew, and the outcomes it
   replays are of the plans the log proposes.
   */
  lemma {:induction false} ResolvedIsTracked(v: Setting, moves: seq<Move>)
    requires Legal(v, moves)
    ensures Follows(Here(v, moves), Tracked(v, moves))
  {
    hide Go, Allowed, Publications, Successor, Named, HeadProposed, Follows, Stepped, Possible;
    if moves == [] {
      BirthIs(v);
      assert Follows(Birth(), NOTHING) by { BornFollowing(); }
    } else {
      var before, move := moves[..|moves| - 1], moves[|moves| - 1];
      var l := Reached(v, before);
      ResolvedIsTracked(v, before);
      RunsKeepNames(v, before);
      RunsPropose(v, before);
      RunsAreOrderly(v, before);
      StepIs(v, l, move);
      TrackStep(v, At(l), HeadEvent(l), Tracked(v, before), move);
    }
  }

  lemma BornFollowing()
    ensures Follows(Birth(), NOTHING)
  {
    hide X.Situation;
  }

  ghost function Onward(v: Setting, p: Point, e: Event, t: Track, move: Move): Track {
    hide Publications, Noted;
    match move
    case Next => Noted(t, e.body, Publications(v, p.o, e, p.ticks))
    case Reboot => NOTHING
    case Tear(_) => NOTHING
    case _ => t
  }

  lemma TrackStep(v: Setting, p: Point, e: Event, t: Track, move: Move)
    requires Named(p) && Follows(p, t) && HeadProposed(p) && Possible(p, move) && HeadIs(p, e)
    ensures Follows(Stepped(v, p, move, e), Onward(v, p, e, t, move))
  {
    hide Publications, Successor, Named, HeadProposed, Follows, Moved, Heard, Noted, Outside, Reconfigures;
    match move
    case Next => NextFollows(v, p, e, t);
    case Hear => HearFollows(v, p, e, t);
    case _ => OthersFollow(v, p, e, t, move);
  }

  // ---------------------------------------------------------------- what is resolved is not pursued again

  /** The process lives through these moves. */
  predicate Survives(moves: seq<Move>) {
    forall move <- moves :: !move.Reboot? && !move.Tear?
  }

  /** The pass about to be completed is in this situation, and its completion proposes this plan. */
  ghost predicate AboutToPropose(v: Setting, moves: seq<Move>, plan: Id, s: Signature) {
    hide Publications;
    var l := Reached(v, moves);
    var e := HeadEvent(l);
    e.body.OfExecutive? && e.body.x.GenerationCompleted? && e.body.x.signature == s && PlansIn(Publications(v, l.m.state, e, l.m.ticks)) == [plan]
  }

  ghost predicate AboutToRecord(v: Setting, moves: seq<Move>, plan: Id) {
    var body := HeadEvent(Reached(v, moves)).body;
    body.OfMemory? && body.m.OutcomeRecorded? && body.m.planId == plan
  }

  predicate Starts(p: Payload, s: Signature) {
    p.OfExecutive? && p.x.GenerationStarted? && p.x.signature == s
  }

  /** No pass over the situation is accepted, whenever it is dispatched. */
  ghost predicate Refuses(v: Setting, p: Point, s: Signature) {
    hide Publications;
    forall e: Event, q: Payload :: Starts(e.body, s) && q in Publications(v, p.o, e, p.ticks) ==> OpportunityName(q) == None
  }

  lemma PassIsRefused(n: Notation, x: X.XState, e: Event, tick: nat, s: Signature)
    requires Starts(e.body, s) && s in x.clusters.resolved
    ensures forall q <- X.Step(n, x, e, tick).published :: OpportunityName(q) == None
  {
    hide X.Cluster, X.Confidences, X.AggregateConfidence, X.OnKernelStarted, X.OnWorldModel, X.OnGovernor, X.OnGenerationCompleted, X.OnOutcomeRecorded, By;
  }

  lemma ResolvedIsRefused(v: Setting, p: Point, s: Signature)
    requires s in p.o.executive.clusters.resolved
    ensures Refuses(v, p, s)
  {
    hide X.Step, Publications;
    forall e: Event, q: Payload | Starts(e.body, s) && q in Publications(v, p.o, e, p.ticks) ensures OpportunityName(q) == None {
      var before, after := ExecutivesPart(v, p.o, e, p.ticks);
      PassIsRefused(Text(v), p.o.executive, e, p.ticks, s);
      assert q in before + after || q in X.Step(Text(v), p.o.executive, e, p.ticks).published;
    }
  }

  /** A plan keeps its situation, and what is resolved stays so, as long as the process lives. */
  lemma OneMoveKeeps(v: Setting, moves: seq<Move>, move: Move)
    requires Legal(v, moves) && !move.Reboot? && !move.Tear?
    ensures var t, t' := Tracked(v, moves), Tracked(v, moves + [move]);
            t.resolved <= t'.resolved && forall plan <- t.pursued :: plan in t'.pursued && t'.pursued[plan] == t.pursued[plan]
  {
    hide Go, Allowed, Publications, Successor, Legal, Follows, Named, PlansIn;
    assert (moves + [move])[..|moves|] == moves;
    if move.Next? {
      var l := Reached(v, moves);
      ResolvedIsTracked(v, moves);
      RunsKeepNames(v, moves);
      NewPlansAreNew(v, At(l), HeadEvent(l), Tracked(v, moves));
    }
  }

  lemma NewPlansAreNew(v: Setting, p: Point, e: Event, t: Track)
    requires Named(p) && Follows(p, t)
    ensures forall plan <- t.pursued :: plan !in PlansIn(Publications(v, p.o, e, p.ticks))
  {
    hide Publications, Successor, X.Situation, X.Step, Own, PlansKnown, One, Makes, PlansIn;
    DeliveryNames(v, p.o, e, p.ticks);
    ExecutiveEffects(Text(v), p.o.executive, e, p.ticks);
    forall plan | plan in t.pursued ensures plan !in PlansIn(Publications(v, p.o, e, p.ticks)) {
      var q :| q in Log(p) && PlanName(q) == Some(plan);
      assert MintedBefore(plan, p.ticks);
    }
  }

  /** Within the life of a process nothing that is resolved is forgotten. */
  lemma {:induction false} ResolvedOnlyGrows(v: Setting, moves: seq<Move>, more: seq<Move>)
    requires Legal(v, moves + more) && Survives(more)
    ensures var t, t' := Tracked(v, moves), Tracked(v, moves + more);
            t.resolved <= t'.resolved && forall plan <- t.pursued :: plan in t'.pursued && t'.pursued[plan] == t.pursued[plan]
  {
    hide Allowed, Tracked, Reached;
    if more == [] {
      assert moves + more == moves;
    } else {
      var k := |more| - 1;
      assert (moves + more)[..|moves + more| - 1] == moves + more[..k] && moves + more == moves + more[..k] + [more[k]] && more[k] in more;
      assert forall move <- more[..k] :: move in more;
      ResolvedOnlyGrows(v, moves, more[..k]);
      OneMoveKeeps(v, moves + more[..k], more[k]);
    }
  }

  lemma {:induction false} LegalSoFar(v: Setting, moves: seq<Move>, more: seq<Move>)
    requires Legal(v, moves + more)
    ensures Legal(v, moves)
  {
    hide Reached, Allowed;
    if more == [] {
      assert moves + more == moves;
    } else {
      assert (moves + more)[..|moves + more| - 1] == moves + more[..|more| - 1];
      LegalSoFar(v, moves, more[..|more| - 1]);
    }
  }

  /** The run whose process completes a pass, later records an outcome of the plan it proposed, and lives on. */
  function Story(first: seq<Move>, middle: seq<Move>, last: seq<Move>): seq<Move> {
    first + [Next] + middle + [Next] + last
  }

  /**
   In every run: once a process has dispatched an outcome of a plan it proposed for a situation, no pass over that situation
   is accepted as long as the process lives.
   */
  lemma ResolvedIsNotPursuedAgain(v: Setting, first: seq<Move>, middle: seq<Move>, last: seq<Move>, plan: Id, s: Signature)
    requires Legal(v, Story(first, middle, last)) && Survives(middle) && Survives(last)
    requires AboutToPropose(v, first, plan, s) && AboutToRecord(v, first + [Next] + middle, plan)
    ensures Refuses(v, Here(v, Story(first, middle, last)), s)
  {
    hide Legal, Publications, Go, Refuses, Project;
    var proposed := first + [Next];
    var ready := proposed + middle;
    var recorded := ready + [Next];
    LegalSoFar(v, recorded, last);
    LegalSoFar(v, ready, [Next]);
    ProposalIsTracked(v, first, plan, s);
    ResolvedOnlyGrows(v, proposed, middle);
    OutcomeIsTracked(v, ready, plan, s);
    ResolvedOnlyGrows(v, recorded, last);
    ResolvedIsTracked(v, recorded + last);
    ResolvedIsRefused(v, Here(v, recorded + last), s);
  }

  lemma ProposalIsTracked(v: Setting, moves: seq<Move>, plan: Id, s: Signature)
    requires AboutToPropose(v, moves, plan, s)
    ensures var t := Tracked(v, moves + [Next]); plan in t.pursued && t.pursued[plan] == s
  {
    hide Go, Publications, Successor, Project;
    assert (moves + [Next])[..|moves|] == moves;
  }

  lemma OutcomeIsTracked(v: Setting, moves: seq<Move>, plan: Id, s: Signature)
    requires AboutToRecord(v, moves, plan) && plan in Tracked(v, moves).pursued && Tracked(v, moves).pursued[plan] == s
    ensures s in Tracked(v, moves + [Next]).resolved
  {
    hide Go, Publications, Successor, Project;
    assert (moves + [Next])[..|moves|] == moves;
  }

  lemma {:induction false} ReplayTracksNothing(v: Setting, moves: seq<Move>, k: nat)
    ensures Tracked(v, moves + [Reboot] + Hearing(k)) == NOTHING
  {
    hide Go, Publications, Noted, Reached;
    var run := moves + [Reboot] + Hearing(k);
    if k == 0 {
      assert run == moves + [Reboot] && run[|run| - 1] == Reboot;
    } else {
      ReplayTracksNothing(v, moves, k - 1);
      assert run[..|run| - 1] == moves + [Reboot] + Hearing(k - 1) && run[|run| - 1] == Hear;
    }
  }

  /** But a process that has replayed the log of another holds nothing resolved, whatever that one had. */
  lemma RestartForgets(v: Setting, moves: seq<Move>)
    requires Legal(v, moves)
    ensures Here(v, Crash(v, moves)).o.executive.clusters.resolved == {}
  {
    hide Here, Legal, Loses, Publications, Tracked;
    CrashIs(v, moves);
    ReplayTracksNothing(v, moves, |Log(Here(v, moves))|);
    ResolvedIsTracked(v, Crash(v, moves));
  }

  ghost predicate AllPursued(log: seq<Payload>, t: Track) {
    forall q <- log :: PlanName(q).Some? ==> PlanName(q).value in t.pursued
  }

  lemma AllStillPursued(log: seq<Payload>, pubs: seq<Payload>, t: Track, s: X.XState, s': X.XState, body: Payload)
    requires AllPursued(log, t) && Situated(s, s', log, PlansIn(pubs), body)
    requires forall q <- pubs :: PlanName(q).Some? ==> PlanName(q).value in PlansIn(pubs)
    ensures AllPursued(log + pubs, Noted(t, body, pubs))
  {
    hide X.Situation, PlansIn;
  }

  lemma PursuedAfter(v: Setting, p: Point, e: Event, t: Track, move: Move)
    requires Named(p) && AllPursued(Log(p), t) && Possible(p, move) && HeadIs(p, e) && !move.Reboot? && !move.Tear?
    ensures AllPursued(Log(Stepped(v, p, move, e)), Onward(v, p, e, t, move))
  {
    hide Publications, Successor, Named, X.Situation, PlansIn, Noted, One, Reconfigures, Situated;
    match move
    case Next =>
      SituationsAfter(v, p, e);
      DeliveryNames(v, p.o, e, p.ticks);
      LogTurns(p);
      AllStillPursued(Log(p), Publications(v, p.o, e, p.ticks), t, p.o.executive, Successor(v, p.o, e, p.ticks).executive, e.body);
      assert Log(Moved(v, p, e)) == Log(p) + Publications(v, p.o, e, p.ticks);
    case Hear => LogTurns(p); assert Log(Heard(v, p, e)) == Log(p);
    case Drop => LogTurns(p); assert Log(Dropped(p)) == Log(p);
    case Enter(body, _) => assert Log(Entered(p, body)) == Log(p) + [body];
    case _ =>
  }

  /** A process that never died knows the situation of every plan on the log. */
  lemma {:induction false} NeverDied(v: Setting, moves: seq<Move>)
    requires Legal(v, moves) && Survives(moves)
    ensures AllPursued(Log(Here(v, moves)), Tracked(v, moves))
  {
    hide Go, Allowed, Publications, Successor, Named, Stepped, Possible;
    if moves == [] {
      BirthIs(v);
    } else {
      var before, move := moves[..|moves| - 1], moves[|moves| - 1];
      var l := Reached(v, before);
      assert move in moves && forall m <- before :: m in moves;
      NeverDied(v, before);
      RunsKeepNames(v, before);
      RunsAreOrderly(v, before);
      StepIs(v, l, move);
      PursuedAfter(v, At(l), HeadEvent(l), Tracked(v, before), move);
    }
  }

  /** So an outcome it dispatches resolves a situation. */
  lemma OutcomeResolvesSomething(v: Setting, moves: seq<Move>, plan: Id)
    requires Legal(v, moves + [Next]) && Survives(moves) && AboutToRecord(v, moves, plan) && ProposedOn(Log(Here(v, moves)), plan)
    ensures Here(v, moves + [Next]).o.executive.clusters.resolved != {}
  {
    hide Go, Publications, Successor, Allowed, Legal, Reached;
    LegalSoFar(v, moves, [Next]);
    NeverDied(v, moves);
    var q :| q in Log(Here(v, moves)) && PlanName(q) == Some(plan);
    OutcomeIsTracked(v, moves, plan, Tracked(v, moves).pursued[plan]);
    ResolvedIsTracked(v, moves + [Next]);
  }

  predicate OutcomeIsNext(p: Point, plan: Id) {
    p.queue != [] && p.queue[0].OfMemory? && p.queue[0].m.OutcomeRecorded? && p.queue[0].m.planId == plan
  }

  predicate HasResolved(p: Point) {
    p.o.executive.clusters.resolved != {}
  }

  lemma DueOutcomeResolves(v: Setting, moves: seq<Move>, plan: Id)
    requires Legal(v, moves + [Next]) && Survives(moves) && OutcomeIsNext(Here(v, moves), plan)
    ensures HasResolved(Here(v, moves + [Next]))
  {
    hide Go, Publications, Successor, Allowed, Legal, Reached, ProposedOn;
    LegalSoFar(v, moves, [Next]);
    RunsPropose(v, moves);
    RunsAreOrderly(v, moves);
    var l := Reached(v, moves);
    assert At(l).queue[0] == HeadEvent(l).body by { HeadOfQueue(l); }
    OutcomeResolvesSomething(v, moves, plan);
  }

  lemma HeadOfQueue(l: Life)
    requires Orderly(l) && At(l).queue != []
    ensures At(l).queue[0] == HeadEvent(l).body
  {
  }
}
