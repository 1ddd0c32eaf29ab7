/** Related beliefs become one opportunity, at their mean confidence, whatever order they arrive in. */
module Aggregation {
  // Published together on an idle kernel, they are all gathered before any of them is decided on, and all
  // decided on before any is acted on.

  import opened Prelude
  import opened Ordering
  import opened Rounding
  import opened Events
  import opened Rules
  import opened KernelModel
  import opened Organism
  import opened Runs
  import X = ExecutiveModel
  import P = PerceptionModel
  import W = WorldModelModel
  import G = GovernorModel
  import T = ExecutorModel
  import M = MemoryModel

  datatype Signal = Signal(id: string, confidence: real, provenance: string)

  /** Beliefs to be published with one correlation id and one claim. */
  datatype Batch = Batch(signals: seq<Signal>, correlation: Correlation, claim: string)

  function Size(b: Batch): nat { |b.signals| }

  function SignatureOf(b: Batch): Signature { Signature.Signature(b.correlation, b.claim) }

  function Body(b: Batch, i: nat): Payload
    requires i < Size(b)
  {
    OfWorldModel(BeliefCreated(b.signals[i].id, b.claim, b.signals[i].confidence, b.signals[i].provenance))
  }

  ghost predicate Distinct(b: Batch) {
    forall i, j :: 0 <= i < j < Size(b) ==> b.signals[i].id != b.signals[j].id
  }

  /** The ids of the first k beliefs. */
  function Ids(b: Batch, k: nat): set<string>
    requires k <= Size(b)
  {
    set i | 0 <= i < k :: b.signals[i].id
  }

  /** The signature is new to the Executive and not resolved. */
  ghost predicate New(c: X.Clusters, signature: Signature) {
    X.Members(c, signature) == {} && signature !in c.generated && signature !in c.resolved
  }

  // ---------------------------------------------------------------- round one: every belief is gathered

  /** The beliefs from number k on, waiting in order. */
  ghost predicate Waiting(b: Batch, k: nat, waiting: seq<Event>) {
    && k <= Size(b) && |waiting| == Size(b) - k
    && forall i :: 0 <= i < |waiting| ==> waiting[i].body == Body(b, k + i) && waiting[i].correlation == b.correlation
  }

  ghost predicate AllPass(sent: seq<Event>, s: Signature) {
    forall e <- sent :: Passes(e.body, s)
  }

  /** The first k beliefs are in the cluster, at the confidence they came with. */
  ghost predicate Gathered(x0: X.XState, x: X.XState, b: Batch, k: nat)
    requires k <= Size(b)
  {
    && X.Members(x.clusters, SignatureOf(b)) == Ids(b, k)
    && (forall i :: 0 <= i < k ==> Lookup(x.clusters.confidence, b.signals[i].id) == Some(b.signals[i].confidence))
    && SignatureOf(b) !in x.clusters.generated && SignatureOf(b) !in x.clusters.resolved
    && x.stores == x0.stores
  }

  /** The first k beliefs have been delivered; as many passes are queued behind the rest. */
  ghost predicate Gathering(x0: X.XState, m: Machine<OState>, b: Batch, k: nat, waiting: seq<Event>, sent: seq<Event>) {
    && WellFormed(m) && Queue(m) == waiting + sent
    && Waiting(b, k, waiting) && |sent| == k && AllPass(sent, SignatureOf(b))
    && Gathered(x0, m.state.executive, b, k)
  }

  predicate Passes(p: Payload, s: Signature) {
    p.OfExecutive? && p.x.GenerationStarted? && p.x.signature == s
  }

  /** Only the Executive answers beliefs and its own passes. */
  predicate ForExecutive(p: Payload) {
    p.OfWorldModel? || (p.OfExecutive? && (p.x.GenerationStarted? || p.x.GenerationCompleted?))
  }

  lemma OnlyExecutiveAnswers(v: Setting, o: OState, e: Event, tick: nat)
    requires ForExecutive(e.body)
    ensures Publications(v, o, e, tick) == X.Step(Text(v), o.executive, e, tick).published
  {
    hide X.Step;
  }

  /** A delivery, for events only the Executive answers. */
  predicate ForExecutiveNext(m: Machine<OState>) {
    m.head < |m.log| == |m.marks| && ForExecutive(Queue(m)[0].body)
  }

  ghost function Delivered(v: Setting, m: Machine<OState>): Machine<OState> {
    if m.head < |m.log| then Deliver(Live(v), m) else m
  }

  /** The Executive alone has reacted, and what it sent has joined the queue. */
  ghost predicate Answers(v: Setting, m: Machine<OState>, m': Machine<OState>, sent: seq<Event>) {
    Queue(m) != [] &&
    var r := X.Step(Text(v), m.state.executive, Queue(m)[0], m.ticks);
    && WellFormed(m') && m'.state.executive == r.state && m'.ticks == m.ticks + 1
    && Queue(m') == Queue(m)[1..] + sent && |sent| == |r.published|
    && (forall i :: 0 <= i < |sent| ==> sent[i].body == r.published[i])
  }

  lemma Answered(v: Setting, m: Machine<OState>) returns (sent: seq<Event>)
    requires ForExecutiveNext(m)
    ensures Answers(v, m, Delivered(v, m), sent)
  {
    hide X.Step, Publications, P.Step, W.Step, G.Step, T.Step, M.Step, Deliver, React, Live, Reactions;
    DeliverShape(Live(v), m);
    ReactionBodies(Live(v), m);
    ReactsAsWired(v, m);
    OnlyExecutiveAnswers(v, m.state, m.log[m.head], m.ticks);
    sent := Reactions(Live(v), m);
  }

  lemma LeavingOthers(c: X.Clusters, beliefId: string, s: Signature)
    ensures Lookup(X.Leave(c, beliefId, s), s) == Lookup(c.members, s)
  {
  }

  /** One belief joins the cluster and asks for a pass. */
  lemma Joins(n: Notation, x: X.XState, e: Event, tick: nat, id: string, claim: string, confidence: real,
        provenance: string)
    requires e.body == OfWorldModel(BeliefCreated(id, claim, confidence, provenance))
    ensures var r, s := X.Step(n, x, e, tick), Signature.Signature(e.correlation, claim);
            && |r.published| == 1 && Passes(r.published[0], s)
            && X.Members(r.state.clusters, s) == X.Members(x.clusters, s) + {id}
            && r.state.clusters.confidence == x.clusters.confidence[id := confidence]
            && r.state.clusters.generated == x.clusters.generated && r.state.clusters.resolved == x.clusters.resolved
            && r.state.stores == x.stores
  {
    hide By;
    LeavingOthers(x.clusters.(claim := x.clusters.claim[id := claim]), id, Signature.Signature(e.correlation, claim));
  }

  lemma IdsGrow(b: Batch, k: nat)
    requires k < Size(b)
    ensures Ids(b, k + 1) == Ids(b, k) + {b.signals[k].id}
  {
  }

  lemma GatheredGrows(x0: X.XState, x: X.XState, x': X.XState, b: Batch, k: nat)
    requires k < Size(b) && Gathered(x0, x, b, k) && Distinct(b)
    requires X.Members(x'.clusters, SignatureOf(b)) == X.Members(x.clusters, SignatureOf(b)) + {b.signals[k].id}
    requires x'.clusters.confidence == x.clusters.confidence[b.signals[k].id := b.signals[k].confidence]
    requires x'.clusters.generated == x.clusters.generated && x'.clusters.resolved == x.clusters.resolved && x'.stores == x.stores
    ensures Gathered(x0, x', b, k + 1)
  {
    hide X.Members;
    IdsGrow(b, k);
  }

  lemma WaitingContinues(b: Batch, k: nat, waiting: seq<Event>)
    requires Waiting(b, k, waiting) && k < Size(b)
    ensures waiting != [] && waiting[0].body == Body(b, k) && waiting[0].correlation == b.correlation
    ensures Waiting(b, k + 1, waiting[1..])
  {
    hide Body;
    assert waiting[0].body == Body(b, k + 0);
    forall i | 0 <= i < |waiting[1..]| ensures waiting[1..][i].body == Body(b, k + 1 + i) && waiting[1..][i].correlation == b.correlation {
      assert waiting[1..][i] == waiting[i + 1];
    }
  }

  lemma OneMorePasses(sent: seq<Event>, more: seq<Event>, s: Signature)
    requires AllPass(sent, s) && |more| == 1 && Passes(more[0].body, s)
    ensures AllPass(sent + more, s) && |sent + more| == |sent| + 1
  {
    hide Passes;
  }

  lemma Requeued(waiting: seq<Event>, sent: seq<Event>, more: seq<Event>)
    requires waiting != []
    ensures (waiting + sent)[0] == waiting[0] && (waiting + sent)[1..] + more == waiting[1..] + (sent + more)
  {
  }

  lemma GatheringContinues(v: Setting, x0: X.XState, m: Machine<OState>, b: Batch, k: nat, waiting: seq<Event>,
        sent: seq<Event>) returns (more: seq<Event>)
    requires Gathering(x0, m, b, k, waiting, sent) && k < Size(b) && Distinct(b)
    ensures m.head < |m.log| && Gathering(x0, Deliver(Live(v), m), b, k + 1, waiting[1..], sent + more)
  {
    hide X.Step, Live, Deliver, Passes, Gathered, Distinct, Waiting, AllPass;
    WaitingContinues(b, k, waiting);
    Requeued(waiting, sent, []);
    var added := Answered(v, m);
    more := added;
    Requeued(waiting, sent, more);
    Joins(Text(v), m.state.executive, waiting[0], m.ticks, b.signals[k].id, b.claim, b.signals[k].confidence,
        b.signals[k].provenance);
    GatheredGrows(x0, m.state.executive, Deliver(Live(v), m).state.executive, b, k);
    OneMorePasses(sent, more, SignatureOf(b));
  }

  // ---------------------------------------------------------------- round two: every pass is decided

  /** The cluster as any pass over it will see it: in belief-id order, at the rounded mean confidence. */
  ghost function Aggregate(b: Batch): seq<string> {
    SortedSet(Ids(b, Size(b)), StringLe)
  }

  /** Each belief's own confidence. */
  function ConfidenceOf(b: Batch): string -> Option<real> {
    (id: string) => ConfidenceIn(b.signals, id)
  }

  function ConfidenceIn(signals: seq<Signal>, id: string): Option<real> {
    if signals == [] then None else if signals[0].id == id then Some(signals[0].confidence) else ConfidenceIn(signals[1..], id)
  }

  function Same(x: real): real { x }

  /** The mean, to six places. */
  function RoundedMean(cs: seq<real>): real
    requires cs != []
  {
    Round6(Sum(cs, Same) / |cs| as real)
  }

  lemma {:induction false} SumsAgree(cs: seq<real>)
    ensures Sum(cs, X.Itself) == Sum(cs, Same)
  {
    if cs != [] { SumsAgree(cs[1..]); }
  }

  lemma MeansAgree(cs: seq<real>)
    requires cs != []
    ensures X.AggregateConfidence(cs) == RoundedMean(cs)
  {
    hide Round6, Sum;
    SumsAgree(cs);
  }

  ghost function MeanConfidence(b: Batch): real
    requires Size(b) > 0
  {
    var cs := Project(Aggregate(b), ConfidenceOf(b));
    if cs == [] then 0.0 else RoundedMean(cs)
  }

  predicate Completes(p: Payload, b: Batch) {
    p.OfExecutive? && p.x.GenerationCompleted? && p.x.signature == SignatureOf(b)
  }

  ghost predicate Accepts(p: Payload, b: Batch)
    requires Size(b) > 0
  {
    Completes(p, b) && p.x.accepted && p.x.beliefIds == Aggregate(b) && p.x.confidence == MeanConfidence(b)
    && p.x.groupId.Some? && p.x.opportunity.Some?
  }

  ghost predicate Rejects(n: Notation, p: Payload, b: Batch) {
    Completes(p, b) && !p.x.accepted && p.x.reason == n.say(Duplicate) && p.x.beliefIds == Aggregate(b)
  }

  /** The first decision accepts; every later one finds a duplicate. */
  ghost predicate Decisions(n: Notation, sent: seq<Event>, b: Batch)
    requires Size(b) > 0
  {
    forall i :: 0 <= i < |sent| ==> if i == 0 then Accepts(sent[i].body, b) else Rejects(n, sent[i].body, b)
  }

  /** Every decision's pass is on the ledger. */
  ghost predicate Begun(generations: seq<X.Generation>, sent: seq<Event>) {
    forall e <- sent :: e.body.OfExecutive? && e.body.x.GenerationCompleted? && X.FirstGeneration(generations, e.body.x.generationId).Some?
  }

  ghost predicate Clustered(c: X.Clusters, b: Batch, decided: bool) {
    && X.Members(c, SignatureOf(b)) == Ids(b, Size(b))
    && (forall i :: 0 <= i < Size(b) ==> Lookup(c.confidence, b.signals[i].id) == Some(b.signals[i].confidence))
    && (if decided then Lookup(c.generated, SignatureOf(b)) == Some(Aggregate(b))
        else SignatureOf(b) !in c.generated && SignatureOf(b) !in c.resolved)
  }

  /** Only the ledger of passes has grown. */
  predicate OnlyGenerations(before: X.Stores, after: X.Stores, k: nat) {
    after == before.(generations := after.generations)
    && |after.generations| == |before.generations| + k && before.generations <= after.generations
  }

  ghost predicate Deciding(n: Notation, x0: X.XState, m: Machine<OState>, b: Batch, k: nat, waiting: seq<Event>,
        sent: seq<Event>)
    requires Size(b) > 0
  {
    var x := m.state.executive;
    && WellFormed(m) && Queue(m) == waiting + sent && |waiting| + k == Size(b) && |sent| == k
    && AllPass(waiting, SignatureOf(b)) && Decisions(n, sent, b) && Begun(x.stores.generations, sent)
    && Clustered(x.clusters, b, k > 0) && OnlyGenerations(x0.stores, x.stores, k)
  }

  lemma {:induction false} ProjectAgrees<U, V>(s: seq<U>, f: U -> Option<V>, g: U -> Option<V>)
    requires forall x <- s :: f(x) == g(x)
    ensures Project(s, f) == Project(s, g)
  {
    if s != [] { ProjectAgrees(s[1..], f, g); }
  }

  lemma {:induction false} ConfidenceFound(signals: seq<Signal>, i: nat)
    requires i < |signals| && forall j, k :: 0 <= j < k < |signals| ==> signals[j].id != signals[k].id
    ensures ConfidenceIn(signals, signals[i].id) == Some(signals[i].confidence)
  {
    if i > 0 {
      assert signals[0].id != signals[i].id;
      assert forall j, k :: 0 <= j < k < |signals[1..]| ==> signals[1..][j] == signals[j + 1] && signals[1..][k] == signals[k + 1];
      ConfidenceFound(signals[1..], i - 1);
    }
  }

  /** Whichever pass looks, it sees the same cluster and the same mean. */
  lemma ClusterSeen(c: X.Clusters, b: Batch, decided: bool)
    requires Size(b) > 0 && Distinct(b) && Clustered(c, b, decided)
    ensures X.Cluster(c, SignatureOf(b)) == Aggregate(b) != []
    ensures |X.Confidences(c, Aggregate(b))| == |Aggregate(b)| && X.AggregateConfidence(X.Confidences(c, Aggregate(b))) == MeanConfidence(b)
  {
    hide X.AggregateConfidence, RoundedMean, X.Members, SortedSet;
    var ids := Aggregate(b);
    SortedSetMembers(Ids(b, Size(b)), StringLe);
    assert b.signals[0].id in ids;
    var held := (id: string) => Lookup(c.confidence, id);
    forall id | id in ids ensures held(id) == ConfidenceOf(b)(id) && held(id).Some? {
      var i :| 0 <= i < Size(b) && b.signals[i].id == id;
      ConfidenceFound(b.signals, i);
    }
    ProjectAgrees(ids, held, ConfidenceOf(b));
    ProjectTotal(ids, held);
    MeansAgree(X.Confidences(c, Aggregate(b)));
  }

  /** What one pass does to the Executive. */
  lemma PassDecides(n: Notation, x: X.XState, e: Event, tick: nat, b: Batch, decided: bool)
    requires Size(b) > 0 && Distinct(b) && Clustered(x.clusters, b, decided) && Passes(e.body, SignatureOf(b))
    ensures var r := X.Step(n, x, e, tick);
            && |r.published| == 1 && (if decided then Rejects(n, r.published[0], b) else Accepts(r.published[0], b))
            && r.published[0].x.generationId == e.body.x.generationId
            && Clustered(r.state.clusters, b, true)
            && r.state.stores == x.stores.(generations := x.stores.generations + [X.Started(e.body.x, Aggregate(b), e.time)])
  {
    hide X.Confidences, X.AggregateConfidence, X.Cluster, Aggregate, MeanConfidence, By, X.OnKernelStarted, X.OnWorldModel, X.OnGovernor,
         X.OnOutcomeRecorded, X.OnGenerationCompleted, X.Situation, X.Started, Ids, Distinct;
    ClusterSeen(x.clusters, b, decided);
  }

  lemma {:induction false} BegunStays(generations: seq<X.Generation>, g: X.Generation, id: Id)
    ensures X.FirstGeneration(generations, id).Some? || g.id == id ==> X.FirstGeneration(generations + [g], id).Some?
  {
    if generations == [] {
      assert [] + [g] == [g];
    } else {
      assert (generations + [g])[1..] == generations[1..] + [g];
      BegunStays(generations[1..], g, id);
    }
  }

  lemma BegunGrows(generations: seq<X.Generation>, g: X.Generation, sent: seq<Event>, e: Event)
    requires Begun(generations, sent) && e.body.OfExecutive? && e.body.x.GenerationCompleted? && e.body.x.generationId == g.id
    ensures Begun(generations + [g], sent + [e])
  {
    hide X.FirstGeneration;
    forall x | x in sent + [e] ensures x.body.OfExecutive? && x.body.x.GenerationCompleted?
                                       && X.FirstGeneration(generations + [g], x.body.x.generationId).Some? {
      BegunStays(generations, g, if x in sent then x.body.x.generationId else e.body.x.generationId);
    }
  }

  lemma DecidingContinues(v: Setting, x0: X.XState, m: Machine<OState>, b: Batch, k: nat, waiting: seq<Event>,
        sent: seq<Event>) returns (more: seq<Event>)
    requires Size(b) > 0 && Distinct(b) && Deciding(Text(v), x0, m, b, k, waiting, sent) && k < Size(b)
    ensures m.head < |m.log| && Deciding(Text(v), x0, Deliver(Live(v), m), b, k + 1, waiting[1..], sent + more)
  {
    hide X.Step, Live, Deliver, Clustered, Accepts, Rejects, Begun, X.Started, Aggregate, Distinct;
    assert Queue(m)[0] == waiting[0] && waiting[0] in waiting;
    var added := Answered(v, m);
    more := added;
    var x, x' := m.state.executive, Deliver(Live(v), m).state.executive;
    PassDecides(Text(v), x, waiting[0], m.ticks, b, k > 0);
    assert more == [more[0]];
    assert Queue(m)[1..] + more == waiting[1..] + (sent + more);
    var g := X.Started(waiting[0].body.x, Aggregate(b), waiting[0].time);
    StartedIs(waiting[0].body.x, Aggregate(b), waiting[0].time);
    DecisionIs(Text(v), more[0].body, b, k > 0);
    BegunGrows(x.stores.generations, g, sent, more[0]);
    assert forall i :: 0 <= i < k ==> (sent + more)[i] == sent[i];
    assert forall e <- waiting[1..] :: e in waiting;
  }

  lemma StartedIs(x: ExecutiveEvent, beliefIds: seq<string>, time: real)
    requires x.GenerationStarted?
    ensures X.Started(x, beliefIds, time).id == x.generationId
  {
  }

  lemma DecisionIs(n: Notation, p: Payload, b: Batch, decided: bool)
    requires Size(b) > 0 && if decided then Rejects(n, p, b) else Accepts(p, b)
    ensures Completes(p, b)
  {
  }

  // ---------------------------------------------------------------- round three: every decision is recorded

  /** What follows an accepted pass ranks below the passes themselves. */
  ghost predicate Downstream(q: seq<Event>) {
    forall e <- q :: Rank(e.body) < 10
  }

  /** The records of the passes: the first accepted, the others as duplicates. */
  ghost predicate Records(n: Notation, records: seq<X.Generation>, b: Batch) {
    forall i :: 0 <= i < |records| ==>
      && records[i].completed && records[i].signature == SignatureOf(b) && records[i].beliefIds == Aggregate(b)
      && records[i].accepted == Some(i == 0) && (i > 0 ==> records[i].reason == Some(n.say(Duplicate)))
  }

  /** Exactly one opportunity has been added: the whole batch at its mean confidence. */
  ghost predicate OneOpportunity(x0: X.XState, x: X.XState, b: Batch)
    requires Size(b) > 0
  {
    && |x.stores.opportunities| == |x0.stores.opportunities| + 1 && x0.stores.opportunities <= x.stores.opportunities
    && var o := x.stores.opportunities[|x0.stores.opportunities|]; o.beliefIds == Aggregate(b) && o.confidence == MeanConfidence(b)
  }

  /** The Executive's stores after k decisions have been delivered. */
  ghost predicate Pursued(n: Notation, x0: X.XState, x: X.XState, b: Batch, k: nat)
    requires Size(b) > 0
  {
    var base := |x0.stores.generations| + Size(b);
    && |x.stores.generations| == base + k && Records(n, x.stores.generations[base..], b)
    && (if k == 0 then x.stores.opportunities == x0.stores.opportunities else OneOpportunity(x0, x, b))
  }

  /** The decisions from number k on, still waiting. */
  ghost predicate Decided(n: Notation, waiting: seq<Event>, b: Batch, k: nat)
    requires Size(b) > 0
  {
    forall i :: 0 <= i < |waiting| ==> if k + i == 0 then Accepts(waiting[i].body, b) else Rejects(n, waiting[i].body, b)
  }

  ghost predicate Recording(n: Notation, x0: X.XState, m: Machine<OState>, b: Batch, k: nat, waiting: seq<Event>,
        sent: seq<Event>)
    requires Size(b) > 0
  {
    && WellFormed(m) && Queue(m) == waiting + sent && |waiting| + k == Size(b)
    && Decided(n, waiting, b, k) && Begun(m.state.executive.stores.generations, waiting) && Downstream(sent)
    && Pursued(n, x0, m.state.executive, b, k)
  }

  /** What one decision does to the Executive. */
  lemma DecisionRecorded(n: Notation, x: X.XState, e: Event, tick: nat, b: Batch)
    requires Size(b) > 0 && Completes(e.body, b) && X.FirstGeneration(x.stores.generations, e.body.x.generationId).Some?
    requires Accepts(e.body, b) || Rejects(n, e.body, b)
    ensures var r, first := X.Step(n, x, e, tick), X.FirstGeneration(x.stores.generations, e.body.x.generationId).value;
            && r.state.stores.generations == x.stores.generations + [X.Recorded(e.body.x, first.started, e.time)]
            && (if e.body.x.accepted
                then r.state.stores.opportunities == x.stores.opportunities + [X.Valued(e.body.x.opportunity.value, Aggregate(b), MeanConfidence(b))]
                else r.published == [] && r.state.stores.opportunities == x.stores.opportunities)
            && (forall p <- r.published :: Rank(p) < 10)
  {
    hide X.FirstGeneration, X.Valued, X.Recorded, Aggregate, MeanConfidence;
  }

  lemma BegunKept(generations: seq<X.Generation>, g: X.Generation, waiting: seq<Event>)
    requires Begun(generations, waiting) && waiting != []
    ensures Begun(generations + [g], waiting[1..])
  {
    hide X.FirstGeneration;
    forall e | e in waiting[1..] ensures e.body.OfExecutive? && e.body.x.GenerationCompleted?
                                         && X.FirstGeneration(generations + [g], e.body.x.generationId).Some? {
      assert e in waiting;
      BegunStays(generations, g, e.body.x.generationId);
    }
  }

  lemma RecordIs(n: Notation, p: Payload, b: Batch, started: real, time: real)
    requires Size(b) > 0 && (Accepts(p, b) || Rejects(n, p, b))
    ensures var r := X.Recorded(p.x, started, time);
            && r.completed && r.signature == SignatureOf(b) && r.beliefIds == Aggregate(b) && r.accepted == Some(p.x.accepted)
            && (!p.x.accepted ==> r.reason == Some(n.say(Duplicate)))
  {
  }

  lemma ValuedIs(id: Id, beliefIds: seq<string>, confidence: real)
    ensures X.Valued(id, beliefIds, confidence).beliefIds == beliefIds && X.Valued(id, beliefIds, confidence).confidence == confidence
  {
  }

  lemma RecordsGrow(n: Notation, generations: seq<X.Generation>, base: nat, r: X.Generation, b: Batch)
    requires base <= |generations| && Records(n, generations[base..], b)
    requires r.completed && r.signature == SignatureOf(b) && r.beliefIds == Aggregate(b) && r.accepted == Some(|generations| == base)
    requires |generations| > base ==> r.reason == Some(n.say(Duplicate))
    ensures Records(n, (generations + [r])[base..], b)
  {
    hide Aggregate;
    assert (generations + [r])[base..] == generations[base..] + [r];
  }

  lemma PursuitGoesOn(n: Notation, x0: X.XState, x: X.XState, e: Event, tick: nat, b: Batch, k: nat)
    requires Size(b) > 0 && Pursued(n, x0, x, b, k) && k < Size(b)
    requires if k == 0 then Accepts(e.body, b) else Rejects(n, e.body, b)
    requires Completes(e.body, b) && X.FirstGeneration(x.stores.generations, e.body.x.generationId).Some?
    ensures Pursued(n, x0, X.Step(n, x, e, tick).state, b, k + 1)
  {
    hide X.Step, Records, X.Recorded, X.Valued, Aggregate, MeanConfidence, X.FirstGeneration;
    DecisionForExecutive(n, e.body, b, k == 0);
    DecisionRecorded(n, x, e, tick, b);
    var first := X.FirstGeneration(x.stores.generations, e.body.x.generationId).value;
    RecordIs(n, e.body, b, first.started, e.time);
    RecordsGrow(n, x.stores.generations, |x0.stores.generations| + Size(b), X.Recorded(e.body.x, first.started,
        e.time), b);
    if k == 0 { ValuedIs(e.body.x.opportunity.value, Aggregate(b), MeanConfidence(b)); }
  }

  lemma LedgerGoesOn(n: Notation, x: X.XState, e: Event, tick: nat, b: Batch, waiting: seq<Event>)
    requires Size(b) > 0 && waiting != [] && waiting[0] == e && Begun(x.stores.generations, waiting)
    requires Completes(e.body, b) && (Accepts(e.body, b) || Rejects(n, e.body, b))
    ensures Begun(X.Step(n, x, e, tick).state.stores.generations, waiting[1..])
    ensures forall p <- X.Step(n, x, e, tick).published :: Rank(p) < 10
  {
    hide X.Step, X.Recorded, X.Valued, Aggregate, MeanConfidence, X.FirstGeneration, Accepts, Rejects;
    BegunHere(x.stores.generations, waiting);
    DecisionRecorded(n, x, e, tick, b);
    var first := X.FirstGeneration(x.stores.generations, e.body.x.generationId).value;
    BegunKept(x.stores.generations, X.Recorded(e.body.x, first.started, e.time), waiting);
  }

  lemma RecordingContinues(v: Setting, x0: X.XState, m: Machine<OState>, b: Batch, k: nat, waiting: seq<Event>,
        sent: seq<Event>) returns (more: seq<Event>)
    requires Size(b) > 0 && Recording(Text(v), x0, m, b, k, waiting, sent) && k < Size(b)
    ensures m.head < |m.log| && Recording(Text(v), x0, Deliver(Live(v), m), b, k + 1, waiting[1..], sent + more)
  {
    hide X.Step, Live, Deliver, Accepts, Rejects, Begun, Pursued, Completes, Downstream, X.FirstGeneration;
    Requeued(waiting, sent, []);
    var n, x, e := Text(v), m.state.executive, waiting[0];
    DecisionForExecutive(n, e.body, b, k == 0);
    more := Answered(v, m);
    Requeued(waiting, sent, more);
    BegunHere(x.stores.generations, waiting);
    PursuitGoesOn(n, x0, x, e, m.ticks, b, k);
    LedgerGoesOn(n, x, e, m.ticks, b, waiting);
    DownstreamGrows(sent, more, X.Step(n, x, e, m.ticks).published);
    RestIsDecided(n, waiting, b, k);
  }

  lemma RestIsDecided(n: Notation, waiting: seq<Event>, b: Batch, k: nat)
    requires Size(b) > 0 && waiting != [] && Decided(n, waiting, b, k)
    ensures Decided(n, waiting[1..], b, k + 1)
  {
    hide Accepts, Rejects;
  }

  lemma DownstreamGrows(sent: seq<Event>, more: seq<Event>, published: seq<Payload>)
    requires Downstream(sent) && |more| == |published| && (forall p <- published :: Rank(p) < 10)
    requires forall i :: 0 <= i < |more| ==> more[i].body == published[i]
    ensures Downstream(sent + more)
  {
    forall y | y in sent + more ensures Rank(y.body) < 10 {
      if y in more { var i :| 0 <= i < |more| && more[i] == y; assert more[i].body in published; }
    }
  }

  lemma BegunHere(generations: seq<X.Generation>, waiting: seq<Event>)
    requires Begun(generations, waiting) && waiting != []
    ensures var e := waiting[0]; e.body.OfExecutive? && e.body.x.GenerationCompleted? && X.FirstGeneration(generations, e.body.x.generationId).Some?
  {
    assert waiting[0] in waiting;
  }

  lemma DecisionForExecutive(n: Notation, p: Payload, b: Batch, first: bool)
    requires Size(b) > 0 && if first then Accepts(p, b) else Rejects(n, p, b)
    ensures ForExecutive(p) && Completes(p, b) && p.x.accepted == first && (first ==> p.x.opportunity.Some?)
  {
  }

  // ---------------------------------------------------------------- and nothing downstream undoes it

  lemma DownstreamLeavesPasses(n: Notation, x: X.XState, e: Event, tick: nat)
    requires Rank(e.body) < 10
    ensures var x' := X.Step(n, x, e, tick).state; x'.stores.opportunities == x.stores.opportunities && x'.stores.generations == x.stores.generations
  {
    hide X.OnKernelStarted, X.OnWorldModel, X.OnGenerationStarted, X.OnGenerationCompleted, X.OnResearchApproved,
         X.Situation;
  }

  lemma DownstreamContinues(v: Setting, m: Machine<OState>)
    requires WellFormed(m) && m.head < |m.log| && Downstream(Queue(m))
    ensures var m' := Deliver(Live(v), m);
            && WellFormed(m') && Downstream(Queue(m'))
            && m'.state.executive.stores.opportunities == m.state.executive.stores.opportunities
            && m'.state.executive.stores.generations == m.state.executive.stores.generations
  {
    hide X.Step, Publications, P.Step, W.Step, G.Step, T.Step, M.Step, Deliver, React, Live, Reactions;
    DeliverShape(Live(v), m);
    ReactionBodies(Live(v), m);
    ReactsAsWired(v, m);
    var e := m.log[m.head];
    assert Queue(m)[0] == e && e in Queue(m);
    PublicationsRankLower(v, m.state, e, m.ticks);
    DownstreamLeavesPasses(Text(v), m.state.executive, e, m.ticks);
    var sent := Reactions(Live(v), m);
    forall y | y in Queue(m)[1..] + sent ensures Rank(y.body) < 10 {
      if y in sent {
        var i :| 0 <= i < |sent| && sent[i] == y;
        assert sent[i].body in Publications(v, m.state, e, m.ticks);
      } else {
        assert y in Queue(m);
      }
    }
  }

  // ---------------------------------------------------------------- the whole drain

  ghost predicate Going(k: KState<OState, OState>) {
    WellFormed(k.m) && k.running && !k.stopping
  }

  lemma DrainNext(v: Setting, k: KState<OState, OState>) returns (k': KState<OState, OState>)
    requires Going(k) && k.m.head < |k.m.log|
    ensures Going(k') && k'.m == Deliver(Live(v), k.m) && Drain(Live(v), k) == Drain(Live(v), k')
  {
    hide Deliver, Live, React;
    k' := Process(Live(v), k);
    ProcessShape(Live(v), k);
  }

  lemma {:induction false} GatherAll(v: Setting, x0: X.XState, k: KState<OState, OState>, b: Batch, j: nat,
        waiting: seq<Event>, sent: seq<Event>)
    returns (k': KState<OState, OState>, sent': seq<Event>)
    requires Going(k) && Distinct(b) && Gathering(x0, k.m, b, j, waiting, sent)
    ensures Going(k') && Drain(Live(v), k) == Drain(Live(v), k') && Gathering(x0, k'.m, b, Size(b), [], sent')
    decreases Size(b) - j
  {
    hide Drain, Live, Deliver, Gathered, AllPass, Distinct, Queue;
    if j == Size(b) {
      assert waiting == [];
      k', sent' := k, sent;
    } else {
      var more := GatheringContinues(v, x0, k.m, b, j, waiting, sent);
      var next := DrainNext(v, k);
      k', sent' := GatherAll(v, x0, next, b, j + 1, waiting[1..], sent + more);
    }
  }

  lemma {:induction false} DecideAll(v: Setting, x0: X.XState, k: KState<OState, OState>, b: Batch, j: nat,
        waiting: seq<Event>, sent: seq<Event>)
    returns (k': KState<OState, OState>, sent': seq<Event>)
    requires Going(k) && Size(b) > 0 && Distinct(b) && Deciding(Text(v), x0, k.m, b, j, waiting, sent)
    ensures Going(k') && Drain(Live(v), k) == Drain(Live(v), k') && Deciding(Text(v), x0, k'.m, b, Size(b), [], sent')
    decreases Size(b) - j
  {
    hide Drain, Live, Deliver, Clustered, AllPass, Decisions, Begun, Distinct, Queue;
    if j == Size(b) {
      assert waiting == [];
      k', sent' := k, sent;
    } else {
      var more := DecidingContinues(v, x0, k.m, b, j, waiting, sent);
      var next := DrainNext(v, k);
      k', sent' := DecideAll(v, x0, next, b, j + 1, waiting[1..], sent + more);
    }
  }

  lemma {:induction false} RecordAll(v: Setting, x0: X.XState, k: KState<OState, OState>, b: Batch, j: nat,
        waiting: seq<Event>, sent: seq<Event>)
    returns (k': KState<OState, OState>, sent': seq<Event>)
    requires Going(k) && Size(b) > 0 && Recording(Text(v), x0, k.m, b, j, waiting, sent)
    ensures Going(k') && Drain(Live(v), k) == Drain(Live(v), k') && Recording(Text(v), x0, k'.m, b, Size(b), [], sent')
    decreases Size(b) - j
  {
    hide Drain, Live, Deliver, Pursued, Decided, Begun, Queue;
    if j == Size(b) {
      assert waiting == [];
      k', sent' := k, sent;
    } else {
      var more := RecordingContinues(v, x0, k.m, b, j, waiting, sent);
      var next := DrainNext(v, k);
      k', sent' := RecordAll(v, x0, next, b, j + 1, waiting[1..], sent + more);
    }
  }

  /** Gathered beliefs are ready to be decided on. */
  lemma GatheredIsClustered(n: Notation, x0: X.XState, m: Machine<OState>, b: Batch, sent: seq<Event>)
    requires Size(b) > 0 && Gathering(x0, m, b, Size(b), [], sent)
    ensures Deciding(n, x0, m, b, 0, sent, [])
  {
    hide Queue, AllPass, X.Members;
    assert [] + sent == sent + [];
  }

  /** Decisions made are ready to be recorded. */
  lemma DecidedIsRecordable(n: Notation, x0: X.XState, m: Machine<OState>, b: Batch, sent: seq<Event>)
    requires Size(b) > 0 && Deciding(n, x0, m, b, Size(b), [], sent)
    ensures Recording(n, x0, m, b, 0, sent, [])
  {
    hide Queue, Clustered, Begun, Accepts, Rejects;
    assert [] + sent == sent + [];
  }

  lemma {:induction false} DownstreamAll(v: Setting, k: KState<OState, OState>)
    requires Going(k) && Downstream(Queue(k.m))
    ensures var x, x' := k.m.state.executive, Drain(Live(v), k).m.state.executive;
            x'.stores.opportunities == x.stores.opportunities && x'.stores.generations == x.stores.generations
    decreases Top(Queue(k.m)), AtTop(Queue(k.m), Top(Queue(k.m))), FirstAtTop(Queue(k.m), Top(Queue(k.m)))
  {
    hide Live, Deliver, Downstream;
    if Busy(k) {
      ProcessLowersMeasure(Live(v), k);
      DownstreamContinues(v, k.m);
      var next := DrainNext(v, k);
      ProcessIs(v, k, next);
      DownstreamAll(v, next);
    }
  }

  lemma ProcessIs(v: Setting, k: KState<OState, OState>, next: KState<OState, OState>)
    requires !k.stopping && k.m.head < |k.m.log| && next.m == Deliver(Live(v), k.m)
    ensures Process(Live(v), k).m == next.m
  {
    hide Deliver, Live, React;
  }

  /** Publishing the beliefs one after the other, from number i on. */
  ghost function PublishFrom(v: Setting, k: KState<OState, OState>, b: Batch, i: nat): (r: KState<OState, OState>)
    requires WellFormed(k.m) && i <= Size(b)
    ensures WellFormed(r.m)
    decreases Size(b) - i
  {
    if i == Size(b) then k else PublishFrom(v, Publish(Live(v), k, Body(b, i), Some(b.correlation)), b, i + 1)
  }

  lemma OnePublished(v: Setting, k: KState<OState, OState>, b: Batch, i: nat) returns (e: Event)
    requires Going(k) && k.started && i < Size(b)
    ensures var r := Publish(Live(v), k, Body(b, i), Some(b.correlation));
            && Going(r) && r.started && r.m.state == k.m.state && Queue(r.m) == Queue(k.m) + [e]
    ensures e.body == Body(b, i) && e.correlation == b.correlation
  {
    hide Live, Drain;
    var k' := Publish(Live(v), k, Body(b, i), Some(b.correlation));
    assert !Lifecycle(Body(b, i));
    assert k'.m == Accept(Live(v), k.m, Body(b, i), Some(b.correlation), false);
    e := k'.m.log[|k.m.log|];
    assert Queue(k'.m) == Queue(k.m) + [e];
  }

  lemma {:induction false} AllPublished(v: Setting, k: KState<OState, OState>, b: Batch, i: nat)
    requires Going(k) && k.started && i <= Size(b) && |Queue(k.m)| == i
    requires forall j :: 0 <= j < i ==> Queue(k.m)[j].body == Body(b, j) && Queue(k.m)[j].correlation == b.correlation
    ensures var r := PublishFrom(v, k, b, i);
            && Going(r) && r.started && r.m.state == k.m.state && Waiting(b, 0, Queue(r.m))
    decreases Size(b) - i
  {
    hide Live, Drain, Publish, Queue, Body;
    if i < Size(b) {
      var e := OnePublished(v, k, b, i);
      AllPublished(v, Publish(Live(v), k, Body(b, i), Some(b.correlation)), b, i + 1);
    }
  }

  /**
   Beliefs published together on a running, idle kernel, under one correlation id and one claim that are
   new to the Executive: once drained, exactly one opportunity has been added, made of all of them in id
   order at their rounded mean confidence; and of as many passes as there were beliefs, the first is on
   record as accepted and every other as a duplicate.
   */
  lemma BeliefsBecomeOneOpportunity(v: Setting, k: KState<OState, OState>, b: Batch)
    requires Going(k) && k.started && Queue(k.m) == [] && Size(b) > 0 && Distinct(b)
    requires New(k.m.state.executive.clusters, SignatureOf(b))
    ensures var x0, r := k.m.state.executive, Drain(Live(v), PublishFrom(v, k, b, 0)).m;
            var generations, n := r.state.executive.stores.generations, Size(b);
            && Queue(r) == []
            && OneOpportunity(x0, r.state.executive, b)
            && |generations| == |x0.stores.generations| + 2 * n
            && Records(Text(v), generations[|x0.stores.generations| + n..], b)
  {
    hide Drain, Gathering, Deciding, Queue, Distinct, Records, Aggregate, MeanConfidence, Live, PublishFrom, Begun,
         Decided;
    var x0, n := k.m.state.executive, Text(v);
    AllPublished(v, k, b, 0);
    var k1 := PublishFrom(v, k, b, 0);
    FirstRound(x0, k1.m, b);
    var k2, passes := GatherAll(v, x0, k1, b, 0, Queue(k1.m), []);
    GatheredIsClustered(n, x0, k2.m, b, passes);
    var k3, decisions := DecideAll(v, x0, k2, b, 0, passes, []);
    DecidedIsRecordable(n, x0, k3.m, b, decisions);
    var k4, rest := RecordAll(v, x0, k3, b, 0, decisions, []);
    assert [] + rest == rest;
    DownstreamAll(v, k4);
    DrainEmpties(Live(v), k1);
  }

  lemma FirstRound(x0: X.XState, m: Machine<OState>, b: Batch)
    requires WellFormed(m) && Waiting(b, 0, Queue(m)) && m.state.executive == x0 && New(x0.clusters, SignatureOf(b))
    ensures Gathering(x0, m, b, 0, Queue(m), [])
  {
    hide Queue, X.Members;
    assert Queue(m) + [] == Queue(m);
    assert Ids(b, 0) == {};
  }

  /** And the opportunity does not depend on the order the beliefs were published in. */
  lemma OrderDoesNotMatter(b: Batch, b': Batch)
    requires b' == b.(signals := b'.signals) && multiset(b.signals) == multiset(b'.signals) && Size(b) > 0 && Distinct(b) && Distinct(b')
    ensures Size(b') == Size(b) && Aggregate(b) == Aggregate(b') && MeanConfidence(b) == MeanConfidence(b')
  {
    hide RoundedMean, SortedSet;
    assert |multiset(b.signals)| == |multiset(b'.signals)|;
    SameMembers(b.signals, b'.signals);
    forall id ensures id in Ids(b, Size(b)) <==> id in Ids(b', Size(b')) {
      if id in Ids(b, Size(b)) { SameId(b, b', id); }
      if id in Ids(b', Size(b')) { SameId(b', b, id); }
    }
    assert Ids(b, Size(b)) == Ids(b', Size(b'));
    var ids := Aggregate(b);
    SortedSetMembers(Ids(b, Size(b)), StringLe);
    forall id | id in ids ensures ConfidenceOf(b)(id) == ConfidenceOf(b')(id) {
      SameId(b, b', id);
    }
    ProjectAgrees(ids, ConfidenceOf(b), ConfidenceOf(b'));
  }

  lemma SameId(b: Batch, b': Batch, id: string)
    requires Distinct(b) && Distinct(b') && id in Ids(b, Size(b)) && forall x :: x in b.signals <==> x in b'.signals
    ensures id in Ids(b', Size(b')) && ConfidenceIn(b.signals, id) == ConfidenceIn(b'.signals, id)
  {
    var i :| 0 <= i < Size(b) && b.signals[i].id == id;
    assert b.signals[i] in b'.signals;
    var j :| 0 <= j < Size(b') && b'.signals[j] == b.signals[i];
    ConfidenceFound(b.signals, i);
    ConfidenceFound(b'.signals, j);
  }
}
