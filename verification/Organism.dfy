/** The organism: six components on one kernel, in the order `build_organism` constructs them. */
module Organism {
  import opened Prelude
  import opened Events
  import opened Rules
  import opened KernelModel
  import P = PerceptionModel
  import W = WorldModelModel
  import X = ExecutiveModel
  import G = GovernorModel
  import T = ExecutorModel
  import M = MemoryModel
  import GT = GovernorTheorems

  datatype OState = OState(perception: P.PState, worldModel: W.WState, executive: X.XState, governor: G.GState,
                           executor: T.TState, memory: M.MState)

  /** Everything handlers draw from outside: texts, rules, clocks, tools. */
  datatype Setting = Setting(governor: G.Env, behaviour: T.Behaviour, clock: nat -> real)

  function Text(v: Setting): Notation { v.governor.text }

  function Initial(): OState {
    OState(P.Initial(), W.Initial(), X.Initial(), G.Initial(), T.Initial(), M.Initial())
  }

  /** What each component publishes in reaction to an event, in the order they are wired. */
  ghost function Publications(v: Setting, o: OState, e: Event, tick: nat): seq<Payload> {
    P.Step(o.perception, e).published
    + W.Step(o.worldModel, e).published
    + X.Step(Text(v), o.executive, e, tick).published
    + G.Step(v.governor, o.governor, e, tick).published
    + T.Step(Text(v), v.behaviour, o.executor, e, tick).published
    + M.Step(Text(v), o.memory, e, tick).published
  }

  ghost function Successor(v: Setting, o: OState, e: Event, tick: nat): OState {
    OState(P.Step(o.perception, e).state, W.Step(o.worldModel, e).state, X.Step(Text(v), o.executive, e, tick).state,
           G.Step(v.governor, o.governor, e, tick).state, T.Step(Text(v), v.behaviour, o.executor, e, tick).state,
           M.Step(Text(v), o.memory, e, tick).state)
  }

  ghost function Handle(v: Setting): (OState, Event, nat) -> Reaction<OState> {
    (o: OState, e: Event, tick: nat) => Reaction(Successor(v, o, e, tick), Publications(v, o, e, tick))
  }

  // ---------------------------------------------------------------- every drain terminates

  lemma PerceptionPublishes(s: P.PState, e: Event)
    ensures By(Perception, P.Step(s, e).published, Rank(e.body))
  {
    hide P.ResearchSensor;
  }

  lemma WorldModelPublishes(s: W.WState, e: Event)
    ensures By(WorldModel, W.Step(s, e).published, Rank(e.body))
  {
    hide W.BeliefId, W.Clamp, W.ReliabilityOf;
  }

  lemma ExecutivePublishes(n: Notation, s: X.XState, e: Event, tick: nat)
    ensures By(Executive, X.Step(n, s, e, tick).published, Rank(e.body))
  {
    hide X.OnKernelStarted, X.OnBelief, X.OnGenerationStarted, X.OnGenerationCompleted, X.OnResearchApproved,
         X.OnOutcomeRecorded;
  }

  lemma GovernorPublishes(v: G.Env, s: G.GState, e: Event, tick: nat)
    ensures By(Governor, G.Step(v, s, e, tick).published, Rank(e.body))
  {
    hide G.OnPlanProposed, G.OnResearchSpendRequested, G.OnGovernance, G.OnRevisionCompleted;
  }

  lemma ExecutorPublishes(n: Notation, b: T.Behaviour, s: T.TState, e: Event, tick: nat)
    ensures By(Executor, T.Step(n, b, s, e, tick).published, Rank(e.body))
  {
    hide T.OnApprovalGranted, T.OnOwn;
  }

  lemma MemoryPublishes(n: Notation, s: M.MState, e: Event, tick: nat)
    ensures By(Memory, M.Step(n, s, e, tick).published, Rank(e.body))
  {
    hide M.OnPlanProposed, M.Record, M.OnOwn, M.OnOpportunityIdentified;
  }

  /** Each component publishes only its own events, all ranking below the one it reacts to. */
  lemma EachPublishesItsOwn(v: Setting, o: OState, e: Event, tick: nat)
    ensures By(Perception, P.Step(o.perception, e).published, Rank(e.body))
    ensures By(WorldModel, W.Step(o.worldModel, e).published, Rank(e.body))
    ensures By(Executive, X.Step(Text(v), o.executive, e, tick).published, Rank(e.body))
    ensures By(Governor, G.Step(v.governor, o.governor, e, tick).published, Rank(e.body))
    ensures By(Executor, T.Step(Text(v), v.behaviour, o.executor, e, tick).published, Rank(e.body))
    ensures By(Memory, M.Step(Text(v), o.memory, e, tick).published, Rank(e.body))
  {
    hide P.Step, W.Step, X.Step, G.Step, T.Step, M.Step, By;
    PerceptionPublishes(o.perception, e);
    WorldModelPublishes(o.worldModel, e);
    ExecutivePublishes(Text(v), o.executive, e, tick);
    GovernorPublishes(v.governor, o.governor, e, tick);
    ExecutorPublishes(Text(v), v.behaviour, o.executor, e, tick);
    MemoryPublishes(Text(v), o.memory, e, tick);
  }

  lemma PublicationsRankLower(v: Setting, o: OState, e: Event, tick: nat)
    ensures forall p <- Publications(v, o, e, tick) :: Rank(p) < Rank(e.body)
  {
    hide P.Step, W.Step, X.Step, G.Step, T.Step, M.Step;
    EachPublishesItsOwn(v, o, e, tick);
  }

  /** The Executor's publications stand together among all the publications of a delivery, before Memory's. */
  lemma ExecutorsPart(v: Setting, o: OState, e: Event, tick: nat) returns (before: seq<Payload>, after: seq<Payload>)
    ensures Publications(v, o, e, tick) == before + T.Step(Text(v), v.behaviour, o.executor, e, tick).published + after
    ensures (forall p <- before :: !p.OfExecutor? && !p.OfMemory?) && after == M.Step(Text(v), o.memory, e, tick).published
    ensures forall p <- before + after :: !p.OfExecutor?
  {
    hide P.Step, W.Step, X.Step, G.Step, T.Step, M.Step;
    EachPublishesItsOwn(v, o, e, tick);
    before := P.Step(o.perception, e).published + W.Step(o.worldModel, e).published + X.Step(Text(v), o.executive, e, tick).published
              + G.Step(v.governor, o.governor, e, tick).published;
    after := M.Step(Text(v), o.memory, e, tick).published;
  }

  /** Nothing is published in reaction to an event of the lowest rank. */
  lemma LowestIsUnanswered(v: Setting, o: OState, e: Event, tick: nat)
    requires Rank(e.body) == 0
    ensures Publications(v, o, e, tick) == []
  {
    hide Publications;
    var ps := Publications(v, o, e, tick);
    assert ps != [] ==> ps[0] in ps;
    PublicationsRankLower(v, o, e, tick);
  }

  lemma ShutdownIsIgnored(v: Setting, o: OState, e: Event, tick: nat)
    requires e.body == OfKernel(Stopping) || e.body == OfKernel(Stopped)
    ensures Publications(v, o, e, tick) == [] && Successor(v, o, e, tick) == o
  {
    hide Publications, By;
    LowestIsUnanswered(v, o, e, tick);
  }

  /** A snapshot holds whatever the components' capture functions give it. */
  ghost function OrganismWiring<N>(v: Setting, capture: OState -> N, restore: (OState, N) -> OState): Wiring<OState,
        N> {
    Wiring(Handle(v), v.clock, capture, restore)
  }

  /** So `run_until_idle` terminates on the fully wired organism, whatever is queued and however much each handler publishes. */
  lemma EveryDrainTerminates<N(!new)>(v: Setting, capture: OState -> N, restore: (OState, N) -> OState)
    ensures Ranked(OrganismWiring(v, capture, restore))
  {
    hide Publications, Successor;
    var w := OrganismWiring(v, capture, restore);
    forall o, e, tick: nat ensures forall p <- w.handler(o, e, tick).published :: Rank(p) < Rank(e.body) {
      PublicationsRankLower(v, o, e, tick);
    }
  }
}
