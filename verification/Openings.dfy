/** Nothing is closed that was not opened: handlers find the records their events refer to. */
module Openings {
  import opened Prelude
  import opened Events
  import opened Rules
  import opened KernelModel
  import opened Organism
  import opened Runs
  import P = PerceptionModel
  import W = WorldModelModel
  import X = ExecutiveModel
  import G = GovernorModel
  import T = ExecutorModel
  import M = MemoryModel
  import R = Ranking

  /** What is opened by one event and closed by another. */
  datatype Key = Iteration(id: Id) | Revision(id: Id) | Claim(id: Id) | Generation(id: Id)

  function Opens(p: Payload): Option<Key> {
    match p
    case OfMemory(m) =>
      if m.LearningStarted? then Some(Iteration(m.iterationId))
      else if m.RevisionStarted? then Some(Revision(m.revisionId))
      else if m.PredictionRecorded? then Some(Claim(m.predictionId)) else None
    case OfExecutive(x) => if x.GenerationStarted? then Some(Generation(x.generationId)) else None
    case _ => None
  }

  function Closes(p: Payload): Option<Key> {
    match p
    case OfMemory(m) =>
      if m.LearningCompleted? then Some(Iteration(m.iterationId))
      else if m.RevisionCompleted? then Some(Revision(m.revisionId))
      else if m.PredictionResolved? then Some(Claim(m.predictionId)) else None
    case OfExecutive(x) => if x.GenerationCompleted? then Some(Generation(x.generationId)) else None
    case _ => None
  }

  /** A record of it is on the ledger. */
  ghost predicate OnLedger(s: M.MState, k: Key) {
    match k
    case Iteration(id) => exists r <- s.learning.iterations :: r.id == id
    case Revision(id) => exists r <- s.learning.revisions :: r.id == id
    case Claim(id) => exists r <- s.predictions :: r.id == id
    case Generation(_) => false
  }

  ghost predicate Generated(s: X.Stores, id: Id) {
    exists r <- s.generations :: r.id == id
  }

  ghost predicate Found(o: OState, k: Key) {
    if k.Generation? then Generated(o.executive.stores, k.id) else OnLedger(o.memory, k)
  }

  // ---------------------------------------------------------------- one delivery

  /** A lookup by id succeeds exactly when some record has the id. */
  lemma {:induction false} IterationFound(records: seq<M.Iteration>, id: Id)
    ensures M.FirstIteration(records, id).Some? <==> exists r <- records :: r.id == id
  {
    if records != [] {
      IterationFound(records[1..], id);
      assert records == [records[0]] + records[1..];
    }
  }

  lemma {:induction false} RevisionFound(records: seq<M.Revision>, id: Id)
    ensures M.FirstRevision(records, id).Some? <==> exists r <- records :: r.id == id
  {
    if records != [] {
      RevisionFound(records[1..], id);
      assert records == [records[0]] + records[1..];
    }
  }

  lemma {:induction false} PredictionFound(records: seq<M.Prediction>, id: Id)
    ensures M.FirstPrediction(records, id).Some? <==> exists r <- records :: r.id == id
  {
    if records != [] {
      PredictionFound(records[1..], id);
      assert records == [records[0]] + records[1..];
    }
  }

  lemma {:induction false} GenerationFound(records: seq<X.Generation>, id: Id)
    ensures X.FirstGeneration(records, id).Some? <==> exists r <- records :: r.id == id
  {
    if records != [] {
      GenerationFound(records[1..], id);
      assert records == [records[0]] + records[1..];
    }
  }

  /** A delivery puts on the ledger what it opens, and nothing else that was not there. */
  lemma LoopsOpen(n: Notation, s: M.MState, m: MemoryEvent, time: real, tick: nat, k: Key)
    requires M.OfLoops(m)
    ensures OnLedger(s.(learning := M.Learn(n, s.learning, s.predictions, m, time, tick).state), k)
            <==> OnLedger(s, k) || Opens(OfMemory(m)) == Some(k)
  {
    hide M.MeanError, M.Consensus, M.Confidence, M.Resolved, M.Classify, M.FirstIteration, M.FirstRevision, By;
    if m.LearningCompleted? { IterationFound(s.learning.iterations, m.iterationId); }
    if m.RevisionCompleted? { RevisionFound(s.learning.revisions, m.revisionId); }
  }

  lemma PredictionsOpen(s: M.MState, m: MemoryEvent, time: real, tick: nat, k: Key)
    requires !M.OfLoops(m)
    ensures OnLedger(M.OnPrediction(s, m, time, tick).state, k) <==> OnLedger(s, k) || Opens(OfMemory(m)) == Some(k)
  {
    hide M.RescoredAll, M.SensorsOf, M.Resolved, M.FirstPrediction, By;
    if m.PredictionResolved? { PredictionFound(s.predictions, m.predictionId); }
  }

  lemma MemoryOpens(n: Notation, s: M.MState, e: Event, tick: nat, k: Key)
    requires !k.Generation?
    ensures OnLedger(M.Step(n, s, e, tick).state, k) <==> OnLedger(s, k) || Opens(e.body) == Some(k)
  {
    hide M.Learn, M.OnPrediction, M.Record, By;
    if e.body.OfMemory? {
      if M.OfLoops(e.body.m) { LoopsOpen(n, s, e.body.m, e.time, tick, k); } else { PredictionsOpen(s, e.body.m, e.time, tick, k); }
    }
  }

  lemma GenerationsOpen(n: Notation, s: X.XState, x: ExecutiveEvent, time: real, tick: nat, id: Id)
    ensures Generated(X.OnOwn(n, s, x, time, tick).state.stores, id)
            <==> Generated(s.stores, id) || Opens(OfExecutive(x)) == Some(Generation(id))
  {
    hide X.Generate, X.Cluster, X.FirstGeneration, X.Valued, X.PlanFor, By;
    if x.GenerationCompleted? { GenerationFound(s.stores.generations, x.generationId); }
  }

  lemma ExecutiveOpens(n: Notation, s: X.XState, e: Event, tick: nat, id: Id)
    ensures Generated(X.Step(n, s, e, tick).state.stores, id) <==> Generated(s.stores, id) || Opens(e.body) == Some(Generation(id))
  {
    hide X.OnOwn, X.OnKernelStarted, X.OnBelief, X.Situation, By;
    match e.body
    case OfExecutive(x) => GenerationsOpen(n, s, x, e.time, tick, id);
    case OfKernel(k) => if k.Started? { StartLeavesStores(n, s); }
    case _ =>
  }

  lemma StartLeavesStores(n: Notation, s: X.XState)
    ensures X.OnKernelStarted(n, s).state.stores == s.stores
  {
    hide X.RequestAll, X.Seeds, By;
    RequestsLeaveStores(n, s, ByWorthSeeds());
  }

  function ByWorthSeeds(): seq<X.Candidate> {
    R.ByWorth(X.Seeds(), X.PriorityOf)
  }

  lemma {:induction false} RequestsLeaveStores(n: Notation, s: X.XState, cs: seq<X.Candidate>)
    ensures X.RequestAll(n, s, cs).state.stores == s.stores
    decreases |cs|
  {
    hide By;
    if cs != [] { RequestsLeaveStores(n, X.RequestResearch(n, s, cs[0]).state, cs[1..]); }
  }

  lemma DeliveryOpens(v: Setting, o: OState, e: Event, tick: nat, k: Key)
    ensures Found(Successor(v, o, e, tick), k) <==> Found(o, k) || Opens(e.body) == Some(k)
  {
    hide P.Step, W.Step, X.Step, G.Step, T.Step, M.Step;
    if k.Generation? { ExecutiveOpens(Text(v), o.executive, e, tick, k.id); } else { MemoryOpens(Text(v), o.memory, e, tick, k); }
  }

  // ---------------------------------------------------------------- what a delivery closes

  /** Pending predictions are on the ledger. */
  ghost predicate PendingOnLedger(s: M.MState) {
    forall plan :: plan in s.pending ==> s.pending[plan] in s.predictions
  }

  lemma PendingStaysOnLedger(n: Notation, s: M.MState, e: Event, tick: nat)
    requires PendingOnLedger(s)
    ensures PendingOnLedger(M.Step(n, s, e, tick).state)
  {
    hide M.Learn, M.RescoredAll, M.SensorsOf, M.Resolved, M.FirstPrediction, M.Record, By;
  }

  /** What a delivery closes, it opened, or it is a prediction on the ledger. */
  lemma MemoryCloses(n: Notation, s: M.MState, e: Event, tick: nat, p: Payload)
    requires PendingOnLedger(s) && p in M.Step(n, s, e, tick).published && Closes(p).Some?
    ensures Opens(e.body) == Closes(p) || (Closes(p).value.Claim? && OnLedger(s, Closes(p).value))
  {
    hide M.Learn, M.OnPrediction, By;
    if e.body.OfMemory? {
      if M.OfLoops(e.body.m) { LoopsClose(n, s, e.body.m, e.time, tick, p); } else { PredictionsClose(s, e.body.m, e.time, tick, p); }
    }
  }

  lemma LoopsClose(n: Notation, s: M.MState, m: MemoryEvent, time: real, tick: nat, p: Payload)
    requires M.OfLoops(m) && p in M.Learn(n, s.learning, s.predictions, m, time, tick).published && Closes(p).Some?
    ensures Opens(OfMemory(m)) == Closes(p)
  {
    hide M.MeanError, M.Consensus, M.Confidence, M.Resolved, M.Classify, M.FirstIteration, M.FirstRevision, By;
  }

  lemma PredictionsClose(s: M.MState, m: MemoryEvent, time: real, tick: nat, p: Payload)
    requires !M.OfLoops(m) && PendingOnLedger(s) && p in M.OnPrediction(s, m, time, tick).published && Closes(p).Some?
    ensures Closes(p).value.Claim? && OnLedger(s, Closes(p).value)
  {
    hide M.ComputeReliability, M.Attributable, M.SensorsOf, M.Resolved, M.FirstPrediction, By;
  }

  /** A completed pass closes the pass it was started for; if accepted it names its group and opportunity. */
  predicate Complete(p: Payload) {
    p.OfExecutive? && p.x.GenerationCompleted? && p.x.accepted ==> p.x.groupId.Some? && p.x.opportunity.Some?
  }

  lemma ExecutiveCloses(n: Notation, s: X.XState, e: Event, tick: nat, p: Payload)
    requires p in X.Step(n, s, e, tick).published
    ensures Complete(p) && (Closes(p).Some? ==> Opens(e.body) == Closes(p))
  {
    hide X.RequestBatch, X.Seeds, X.OnBelief, X.Generate, X.Cluster, X.Pursue, X.FirstGeneration, X.Situation, By;
    match e.body
    case OfKernel(_) => RequestsCloseNothing(n, s, ByWorthSeeds(), p);
    case OfWorldModel(w) => BeliefsCloseNothing(s.clusters, w, e.correlation, tick);
    case OfExecutive(x) =>
      if x.GenerationStarted? { GenerateCloses(n, s.clusters, x, X.Cluster(s.clusters, x.signature), tick); }
      else if x.GenerationCompleted? && x.groupId.Some? && x.opportunity.Some? { PursuitClosesNothing(n, x, tick); }
    case _ =>
  }

  lemma {:induction false} RequestsCloseNothing(n: Notation, s: X.XState, cs: seq<X.Candidate>, p: Payload)
    ensures p in X.RequestAll(n, s, cs).published ==> p.OfExecutive? && p.x.ResearchSpendRequested?
    ensures p in X.RequestBatch(n, s, X.Seeds()).published && cs == ByWorthSeeds() ==> p.OfExecutive? && p.x.ResearchSpendRequested?
    decreases |cs|
  {
    hide By, X.Seeds;
    if cs != [] { RequestsCloseNothing(n, X.RequestResearch(n, s, cs[0]).state, cs[1..], p); }
  }

  lemma BeliefsCloseNothing(c: X.Clusters, w: WorldModelEvent, correlation: Correlation, tick: nat)
    ensures forall p <- X.OnBelief(c, w, correlation, tick).published :: p.OfExecutive? && p.x.GenerationStarted?
  {
    hide X.ClaimKey, X.Leave, By;
  }

  lemma GenerateCloses(n: Notation, c: X.Clusters, x: ExecutiveEvent, beliefIds: seq<string>, tick: nat)
    requires x.GenerationStarted?
    ensures forall p <- X.Generate(n, c, x, beliefIds, tick).published :: Complete(p) && Closes(p) == Some(Generation(x.generationId))
  {
    hide X.Confidences, X.AggregateConfidence, By;
  }

  lemma PursuitClosesNothing(n: Notation, x: ExecutiveEvent, tick: nat)
    requires x.GenerationCompleted? && x.groupId.Some? && x.opportunity.Some?
    ensures forall s: X.XState, p :: p in X.Pursue(n, s, x, tick).published ==> Complete(p) && Closes(p) == None
  {
    hide X.Valued, X.PlanFor, By;
  }

  lemma DeliveryCloses(v: Setting, o: OState, e: Event, tick: nat, p: Payload)
    requires PendingOnLedger(o.memory) && p in Publications(v, o, e, tick)
    ensures Complete(p)
    ensures Closes(p).Some? ==> Opens(e.body) == Closes(p) || Found(o, Closes(p).value)
  {
    hide P.Step, W.Step, X.Step, G.Step, T.Step, M.Step, PendingOnLedger, OnLedger;
    EachPublishesItsOwn(v, o, e, tick);
    if p in X.Step(Text(v), o.executive, e, tick).published {
      ExecutiveCloses(Text(v), o.executive, e, tick, p);
    } else if p in M.Step(Text(v), o.memory, e, tick).published && Closes(p).Some? {
      MemoryCloses(Text(v), o.memory, e, tick, p);
    }
  }

  // ---------------------------------------------------------------- over whole runs

  ghost predicate OpenedBefore(log: seq<Payload>, i: nat, k: Key)
    requires i <= |log|
  {
    exists j: nat :: j < i && Opens(log[j]) == Some(k)
  }

  /** In the log, what is closed was opened before. */
  ghost predicate Ordered(log: seq<Payload>) {
    forall i: nat :: i < |log| && Closes(log[i]).Some? ==> OpenedBefore(log, i, Closes(log[i]).value)
  }

  /** What the queue closes is on the ledgers, or will have been put there by the replay under way. */
  ghost predicate Ready(p: Point) {
    forall i: nat :: i < |p.queue| && Closes(p.queue[i]).Some? ==>
      Found(p.o, Closes(p.queue[i]).value) || (p.replaying && OpenedBefore(p.queue, i, Closes(p.queue[i]).value))
  }

  ghost predicate Provenance(p: Point) {
    forall k :: Found(p.o, k) ==> OpenedBefore(p.past, |p.past|, k)
  }

  ghost predicate InOrder(p: Point) {
    && Ordered(Log(p)) && Ready(p) && Provenance(p) && PendingOnLedger(p.o.memory)
    && forall x <- Log(p) :: Complete(x)
  }

  lemma OpenedStays(log: seq<Payload>, more: seq<Payload>, i: nat, k: Key)
    requires i <= |log| && OpenedBefore(log, i, k)
    ensures forall j: nat :: i <= j <= |log + more| ==> OpenedBefore(log + more, j, k)
  {
    var j: nat :| j < i && Opens(log[j]) == Some(k);
    assert (log + more)[j] == log[j];
  }

  lemma OrderedGrows(log: seq<Payload>, more: seq<Payload>)
    requires Ordered(log) && forall p <- more :: Closes(p).Some? ==> OpenedBefore(log, |log|, Closes(p).value)
    ensures Ordered(log + more)
  {
    hide OpenedBefore;
    var all := log + more;
    forall i: nat | i < |all| && Closes(all[i]).Some? ensures OpenedBefore(all, i, Closes(all[i]).value) {
      if i < |log| {
        assert all[i] == log[i];
        OpenedStays(log, more, i, Closes(log[i]).value);
      } else {
        assert all[i] == more[i - |log|] && more[i - |log|] in more;
        OpenedStays(log, more, |log|, Closes(all[i]).value);
      }
    }
  }

  lemma ProvenanceGrows(v: Setting, p: Point, p': Point, e: Event)
    requires Provenance(p) && p'.past == p.past + [e.body] && p'.o == Successor(v, p.o, e, p.ticks)
    ensures Provenance(p')
  {
    hide Successor, Found, OpenedBefore, Opens;
    forall k | Found(p'.o, k) ensures OpenedBefore(p'.past, |p'.past|, k) {
      DeliveryOpens(v, p.o, e, p.ticks, k);
      if Found(p.o, k) { OpenedStays(p.past, [e.body], |p.past|, k); } else { JustOpened(p.past, e.body, k); }
    }
  }

  lemma JustOpened(past: seq<Payload>, body: Payload, k: Key)
    requires Opens(body) == Some(k)
    ensures OpenedBefore(past + [body], |past + [body]|, k)
  {
    assert (past + [body])[|past|] == body;
  }

  lemma DeliveringStaysInOrder(v: Setting, p: Point, e: Event)
    requires p.queue != [] && HeadIs(p, e) && InOrder(p) && !p.replaying
    ensures InOrder(Moved(v, p, e))
  {
    hide Successor, Publications, Found, OpenedBefore, Opens, Closes, Complete, PendingOnLedger;
    var p', pubs, log := Moved(v, p, e), Publications(v, p.o, e, p.ticks), Log(p);
    LogTurns(p);
    assert Log(p') == log + pubs;
    forall x | x in pubs ensures Complete(x) && (Closes(x).Some? ==> Found(p'.o, Closes(x).value) && OpenedBefore(log, |log|, Closes(x).value)) {
      DeliveryCloses(v, p.o, e, p.ticks, x);
      if Closes(x).Some? {
        var k := Closes(x).value;
        DeliveryOpens(v, p.o, e, p.ticks, k);
        if Found(p.o, k) {
          OpenedStays(p.past, p.queue, |p.past|, k);
        } else {
          JustOpened(p.past, e.body, k);
          OpenedStays(p.past + [e.body], p.queue[1..], |p.past| + 1, k);
        }
      }
    }
    OrderedGrows(log, pubs);
    ProvenanceGrows(v, p, p', e);
    forall i: nat | i < |p'.queue| && Closes(p'.queue[i]).Some? ensures Found(p'.o, Closes(p'.queue[i]).value) {
      if i < |p.queue| - 1 {
        assert p'.queue[i] == p.queue[i + 1];
        DeliveryOpens(v, p.o, e, p.ticks, Closes(p'.queue[i]).value);
      } else {
        assert p'.queue[i] == pubs[i - (|p.queue| - 1)] && pubs[i - (|p.queue| - 1)] in pubs;
      }
    }
    assert PendingOnLedger(p'.o.memory) by { PendingFollows(v, p, e); }
  }

  lemma PendingFollows(v: Setting, p: Point, e: Event)
    requires PendingOnLedger(p.o.memory)
    ensures PendingOnLedger(Successor(v, p.o, e, p.ticks).memory)
  {
    hide P.Step, W.Step, X.Step, G.Step, T.Step, M.Step;
    PendingStaysOnLedger(Text(v), p.o.memory, e, p.ticks);
  }

  lemma HearingStaysInOrder(v: Setting, p: Point, e: Event)
    requires p.queue != [] && HeadIs(p, e) && InOrder(p) && p.replaying
    ensures InOrder(Heard(v, p, e))
  {
    hide Successor, Publications, Found, Opens, Closes, Complete, PendingOnLedger;
    var p' := Heard(v, p, e);
    LogTurns(p);
    assert Log(p') == Log(p);
    ProvenanceGrows(v, p, p', e);
    forall i: nat | i < |p'.queue| && Closes(p'.queue[i]).Some?
      ensures Found(p'.o, Closes(p'.queue[i]).value) || OpenedBefore(p'.queue, i, Closes(p'.queue[i]).value) {
      var k := Closes(p'.queue[i]).value;
      assert p'.queue[i] == p.queue[i + 1];
      DeliveryOpens(v, p.o, e, p.ticks, k);
      if !Found(p.o, k) {
        var j: nat :| j < i + 1 && Opens(p.queue[j]) == Some(k);
        if j > 0 { assert p'.queue[j - 1] == p.queue[j]; }
      }
    }
    PendingFollows(v, p, e);
  }

  lemma EnteringStaysInOrder(p: Point, body: Payload)
    requires InOrder(p) && !p.replaying && Outside(p.o, body)
    ensures InOrder(Entered(p, body))
  {
    hide Found, PendingOnLedger;
    assert Closes(body) == None && Complete(body);
    OrderedGrows(Log(p), [body]);
    assert Log(Entered(p, body)) == Log(p) + [body];
    var p' := Entered(p, body);
    forall i: nat | i < |p'.queue| && Closes(p'.queue[i]).Some? ensures Found(p'.o, Closes(p'.queue[i]).value) {
      assert i < |p.queue| && p'.queue[i] == p.queue[i];
    }
  }

  lemma DroppingStaysInOrder(p: Point)
    requires InOrder(p) && !p.replaying && p.queue != []
    ensures InOrder(Dropped(p))
  {
    hide Found, PendingOnLedger, Opens, Closes, Complete;
    var p' := Dropped(p);
    LogTurns(p);
    assert Log(p') == Log(p);
    forall k | Found(p'.o, k) ensures OpenedBefore(p'.past, |p'.past|, k) { OpenedStays(p.past, [p.queue[0]], |p.past|, k); }
    assert forall i :: 0 <= i < |p'.queue| ==> p'.queue[i] == p.queue[i + 1];
  }

  lemma RebootingStaysInOrder(p: Point)
    requires InOrder(p)
    ensures InOrder(Rebooted(p))
  {
    hide Opens, Closes, Complete;
    assert Log(Rebooted(p)) == Log(p);
  }

  /** What a dispatch publishes after the log is in order; so is what was logged of it. */
  lemma TearingStaysInOrder(v: Setting, p: Point, e: Event, n: nat)
    requires p.queue != [] && HeadIs(p, e) && InOrder(p) && !p.replaying
    ensures InOrder(Torn(v, p, e, n))
  {
    hide Successor, Publications, Opens, Closes, Complete, Found, PendingOnLedger, Ready, Provenance;
    var p', pubs := Moved(v, p, e), Publications(v, p.o, e, p.ticks);
    DeliveringStaysInOrder(v, p, e);
    LogTurns(p);
    assert Log(p') == Log(p) + pubs;
    var full, log := Log(p) + pubs, Log(p) + Taken(pubs, n);
    assert log <= full && Log(Torn(v, p, e, n)) == log;
    forall i: nat | i < |log| && Closes(log[i]).Some? ensures OpenedBefore(log, i, Closes(log[i]).value) {
      assert log[i] == full[i];
      var j: nat :| j < i && Opens(full[j]) == Some(Closes(full[i]).value);
      assert log[j] == full[j];
    }
    forall x | x in log ensures Complete(x) { assert x in full; }
    BootsInOrder(Torn(v, p, e, n));
  }

  /** A log in order is all a new process needs. */
  lemma BootsInOrder(p: Point)
    requires p.o == Organism.Initial() && p.past == [] && p.replaying
    requires Ordered(p.queue) && forall x <- p.queue :: Complete(x)
    ensures InOrder(p)
  {
    hide Opens, Closes, Complete;
    assert Log(p) == p.queue;
  }

  lemma ConfiguringStaysInOrder(p: Point, o: OState)
    requires InOrder(p) && Reconfigures(p.o, o)
    ensures InOrder(Configured(p, o))
  {
    hide Opens, Closes, Complete, OpenedBefore, BeliefsInRange;
    assert forall k :: Found(o, k) <==> Found(p.o, k);
  }

  lemma RunsStayInOrder(v: Setting, moves: seq<Move>)
    requires Legal(v, moves)
    ensures InOrder(Here(v, moves))
  {
    hide Reached, Legal, Loses, InOrder, Possible, Affords, Stepped;
    var inv := (p: Point) => InOrder(p);
    assert InOrder(Birth()) by { BornInOrder(); }
    forall p, move, e: Event | inv(p) && Possible(p, move) && HeadIs(p, e)
      ensures inv(Stepped(v, p, move, e)) {
      StepStaysInOrder(v, p, move, e);
    }
    LosesAnything(v, moves);
    RunsKeep(v, moves, AnyLoss, inv);
  }

  lemma BornInOrder()
    ensures InOrder(Birth())
  {
  }

  lemma StepStaysInOrder(v: Setting, p: Point, move: Move, e: Event)
    requires InOrder(p) && Possible(p, move) && HeadIs(p, e)
    ensures InOrder(Stepped(v, p, move, e))
  {
    hide InOrder, Moved, Heard, Torn, Outside, Reconfigures;
    match move
    case Enter(body, _) => EnteringStaysInOrder(p, body);
    case Next => DeliveringStaysInOrder(v, p, e);
    case Drop => DroppingStaysInOrder(p);
    case Reboot => RebootingStaysInOrder(p);
    case Tear(n) => TearingStaysInOrder(v, p, e, n);
    case Hear => HearingStaysInOrder(v, p, e);
    case Configure(o) => ConfiguringStaysInOrder(p, o);
  }

  lemma HeadIsFound(p: Point)
    requires InOrder(p) && p.queue != [] && Closes(p.queue[0]).Some?
    ensures Found(p.o, Closes(p.queue[0]).value)
  {
    hide Found, Ordered, Provenance, PendingOnLedger, Complete, Opens, Closes;
    var k := Closes(p.queue[0]).value;
    assert !OpenedBefore(p.queue, 0, k);
  }

  ghost predicate AboutToClose(p: Point, k: Key) {
    p.queue != [] && Closes(p.queue[0]) == Some(k)
  }

  /**
   In every run, whatever it lost and however often it was restarted, whatever the event at the head of the
   queue closes, live or replayed, is on the ledger.
   */
  lemma ClosingFindsItsOpening(v: Setting, moves: seq<Move>, k: Key)
    requires Legal(v, moves) && AboutToClose(Here(v, moves), k)
    ensures Found(Here(v, moves).o, k)
  {
    hide Reached, Legal, Here, Found, InOrder, Closes;
    RunsStayInOrder(v, moves);
    HeadIsFound(Here(v, moves));
  }

  /** What the handlers of Memory's look up by the id an event carries. */
  ghost predicate LookUpsSucceed(s: M.MState, m: MemoryEvent) {
    && (m.LearningCompleted? ==> M.FirstIteration(s.learning.iterations, m.iterationId).Some?)
    && (m.RevisionCompleted? ==> M.FirstRevision(s.learning.revisions, m.revisionId).Some?)
    && (m.PredictionResolved? ==> M.FirstPrediction(s.predictions, m.predictionId).Some?)
  }

  /** So no handler of Memory's raises in any run. */
  lemma MemoryNeverRaises(v: Setting, moves: seq<Move>, m: MemoryEvent)
    requires Legal(v, moves) && Facing(Here(v, moves), OfMemory(m))
    ensures LookUpsSucceed(Here(v, moves).o.memory, m)
  {
    hide Here, Legal;
    var s := Here(v, moves).o.memory;
    if Closes(OfMemory(m)).Some? {
      ClosingFindsItsOpening(v, moves, Closes(OfMemory(m)).value);
      if m.LearningCompleted? { IterationFound(s.learning.iterations, m.iterationId); }
      if m.RevisionCompleted? { RevisionFound(s.learning.revisions, m.revisionId); }
      if m.PredictionResolved? { PredictionFound(s.predictions, m.predictionId); }
    }
  }
}
