/** Which beliefs a pass finds in its cluster, told from the events alone. */
module Clusters {
  import opened Prelude
  import opened Events
  import opened Rules
  import X = ExecutiveModel
  import R = Ranking
  import S = Searches

  /** What a belief claims: what it was created with, or, if the Executive never saw that, its own id. */
  function Claimed(c: X.Clusters, events: seq<Event>, belief: string): string {
    if events == [] then (if belief in c.claim then c.claim[belief] else belief)
    else
      match events[|events| - 1].body
      case OfWorldModel(BeliefCreated(id, claim, _, _)) => if id == belief then claim else Claimed(c, events[..|events| - 1], belief)
      case _ => Claimed(c, events[..|events| - 1], belief)
  }

  /** Where a belief belongs: the causal cascade of the last event about it, and its claim at that time. */
  function Belongs(c: X.Clusters, events: seq<Event>, belief: string): Option<Signature> {
    if events == [] then Lookup(c.signatureOf, belief)
    else
      var e := events[|events| - 1];
      if e.body.OfWorldModel? && e.body.w.beliefId == belief then Some(Signature.Signature(e.correlation, Claimed(c, events, belief)))
      else Belongs(c, events[..|events| - 1], belief)
  }

  /** How sure the last event about it was. */
  function Sureness(c: X.Clusters, events: seq<Event>, belief: string): Option<real> {
    if events == [] then Lookup(c.confidence, belief)
    else
      var e := events[|events| - 1];
      if e.body.OfWorldModel? && e.body.w.beliefId == belief then Some(e.body.w.confidence) else Sureness(c, events[..|events| - 1], belief)
  }

  function Members(c: X.Clusters, s: Signature): set<string> {
    if s in c.members then c.members[s] else {}
  }

  /** A belief is in one cluster, its own. */
  ghost predicate Partitioned(c: X.Clusters) {
    forall s, b :: b in Members(c, s) <==> Lookup(c.signatureOf, b) == Some(s)
  }

  function ClaimOf(c: X.Clusters, belief: string): string {
    if belief in c.claim then c.claim[belief] else belief
  }

  lemma SignalSorts(c: X.Clusters, w: WorldModelEvent, correlation: Correlation, tick: nat)
    requires Partitioned(c)
    ensures var c' := X.OnBelief(c, w, correlation, tick).state;
            && Partitioned(c')
            && c'.claim == (if w.BeliefCreated? then c.claim[w.beliefId := w.claim] else c.claim)
            && c'.confidence == c.confidence[w.beliefId := w.confidence]
            && c'.signatureOf == c.signatureOf[w.beliefId := Signature.Signature(correlation, ClaimOf(c', w.beliefId))]
  {
    hide By;
    var c' := X.OnBelief(c, w, correlation, tick).state;
    var mine := Signature.Signature(correlation, ClaimOf(c', w.beliefId));
    forall s, b ensures b in Members(c', s) <==> Lookup(c'.signatureOf, b) == Some(s) {
      assert b in Members(c, s) <==> Lookup(c.signatureOf, b) == Some(s);
      assert w.beliefId in Members(c, s) <==> Lookup(c.signatureOf, w.beliefId) == Some(s);
    }
  }

  predicate SameSignals(c: X.Clusters, c': X.Clusters) {
    c'.members == c.members && c'.claim == c.claim && c'.confidence == c.confidence && c'.signatureOf == c.signatureOf
  }

  lemma PassLeavesSignals(n: Notation, c: X.Clusters, x: ExecutiveEvent, beliefIds: seq<string>, tick: nat)
    requires x.GenerationStarted?
    ensures SameSignals(c, X.Generate(n, c, x, beliefIds, tick).state)
  {
    hide X.Confidences, X.AggregateConfidence, By;
  }

  lemma CompletionLeavesSignals(n: Notation, s: X.XState, x: ExecutiveEvent, time: real, tick: nat)
    requires x.GenerationCompleted?
    ensures SameSignals(s.clusters, X.OnGenerationCompleted(n, s, x, time, tick).state.clusters)
  {
    hide X.FirstGeneration, X.Recorded, X.Valued, X.PlanFor, By;
  }

  lemma OthersLeaveSignals(n: Notation, x: X.XState, e: Event, tick: nat)
    requires !e.body.OfWorldModel?
    ensures SameSignals(x.clusters, X.Step(n, x, e, tick).state.clusters)
  {
    hide X.Generate, X.OnGenerationCompleted, X.Cluster, X.Situation, X.RequestAll, X.Seeds, By;
    match e.body
    case OfKernel(_) => RequestsLeaveClusters(n, x, R.ByWorth(X.Seeds(), X.PriorityOf));
    case OfExecutive(y) =>
      if y.GenerationStarted? { PassLeavesSignals(n, x.clusters, y, X.Cluster(x.clusters, y.signature), tick); }
      else if y.GenerationCompleted? { CompletionLeavesSignals(n, x, y, e.time, tick); }
    case _ =>
  }

  lemma {:induction false} RequestsLeaveClusters(n: Notation, x: X.XState, cs: seq<X.Candidate>)
    ensures X.RequestAll(n, x, cs).state.clusters == x.clusters
    decreases |cs|
  {
    hide By;
    if cs != [] { RequestsLeaveClusters(n, X.RequestResearch(n, x, cs[0]).state, cs[1..]); }
  }

  ghost predicate Agrees(c: X.Clusters, c0: X.Clusters, events: seq<Event>, belief: string) {
    && ClaimOf(c, belief) == Claimed(c0, events, belief)
    && Lookup(c.signatureOf, belief) == Belongs(c0, events, belief)
    && Lookup(c.confidence, belief) == Sureness(c0, events, belief)
  }

  lemma SignalAgrees(c: X.Clusters, c': X.Clusters, c0: X.Clusters, events: seq<Event>, belief: string)
    requires events != [] && Agrees(c, c0, events[..|events| - 1], belief)
    requires var e := events[|events| - 1];
             if e.body.OfWorldModel? then
               var w := e.body.w;
               && c'.claim == (if w.BeliefCreated? then c.claim[w.beliefId := w.claim] else c.claim)
               && c'.confidence == c.confidence[w.beliefId := w.confidence]
               && c'.signatureOf == c.signatureOf[w.beliefId := Signature.Signature(e.correlation, ClaimOf(c', w.beliefId))]
             else SameSignals(c, c')
    ensures Agrees(c', c0, events, belief)
  {
  }

  /**
   Over any events: a belief is in the cluster of the cascade it was last touched in and of its claim, and in no other, with
   the confidence it was last given.
   */
  lemma {:induction false} ClustersAreTold(n: Notation, x: X.XState, events: seq<Event>, tick: nat, belief: string, s: Signature)
    requires Partitioned(x.clusters)
    ensures var c := S.Advanced(n, x, events, tick).clusters;
            && Partitioned(c) && Agrees(c, x.clusters, events, belief)
            && (belief in Members(c, s) <==> Belongs(x.clusters, events, belief) == Some(s))
  {
    hide X.Step, X.OnBelief, Partitioned, Agrees, Members, SameSignals, By;
    if events == [] {
      assert Agrees(x.clusters, x.clusters, [], belief) by { AgreesAtFirst(x.clusters, belief); }
      MembersAre(x.clusters, belief, s);
    } else {
      var k := |events| - 1;
      var before, e := S.Advanced(n, x, events[..k], tick), events[k];
      ClustersAreTold(n, x, events[..k], tick, belief, s);
      if e.body.OfWorldModel? {
        WorldModelSignals(n, before, e, tick + k);
        SignalSorts(before.clusters, e.body.w, e.correlation, tick + k);
      } else {
        OthersLeaveSignals(n, before, e, tick + k);
        SamePartition(before.clusters, X.Step(n, before, e, tick + k).state.clusters);
      }
      SignalAgrees(before.clusters, S.Advanced(n, x, events, tick).clusters, x.clusters, events, belief);
      MembersAre(S.Advanced(n, x, events, tick).clusters, belief, s);
      SituatedIs(S.Advanced(n, x, events, tick).clusters, x.clusters, events, belief);
    }
  }

  lemma SituatedIs(c: X.Clusters, c0: X.Clusters, events: seq<Event>, belief: string)
    requires Agrees(c, c0, events, belief)
    ensures Lookup(c.signatureOf, belief) == Belongs(c0, events, belief)
  {
  }

  lemma AgreesAtFirst(c: X.Clusters, belief: string)
    ensures Agrees(c, c, [], belief)
  {
  }

  lemma WorldModelSignals(n: Notation, x: X.XState, e: Event, tick: nat)
    requires e.body.OfWorldModel?
    ensures X.Step(n, x, e, tick).state.clusters == X.OnBelief(x.clusters, e.body.w, e.correlation, tick).state
  {
    hide X.OnBelief, By;
  }

  lemma MembersAre(c: X.Clusters, belief: string, s: Signature)
    requires Partitioned(c)
    ensures belief in Members(c, s) <==> Lookup(c.signatureOf, belief) == Some(s)
  {
  }

  lemma SamePartition(c: X.Clusters, c': X.Clusters)
    requires Partitioned(c) && SameSignals(c, c')
    ensures Partitioned(c')
  {
    forall s, b ensures b in Members(c', s) <==> Lookup(c'.signatureOf, b) == Some(s) { assert b in Members(c, s) <==> Lookup(c.signatureOf, b) == Some(s); }
  }
}
