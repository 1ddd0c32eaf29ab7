/** The learning loops count: while nothing is lost, the ledgers they keep stay in step throughout. */
module Learning {
  import opened Prelude
  import opened Events
  import opened Rules
  import opened KernelModel
  import opened Organism
  import opened Runs
  import O = Openings
  import M = MemoryModel
  import P = PerceptionModel
  import W = WorldModelModel
  import X = ExecutiveModel
  import G = GovernorModel
  import T = ExecutorModel

  // ---------------------------------------------------------------- what is counted

  /** The medium loop turns resolutions into heuristics, the slow one heuristics into long-term knowledge. */
  datatype Loop = Medium | Slow

  /** A transition of an iteration or a revision: started, or completed. */
  datatype Note = Note(id: Id, completed: bool)

  predicate IsStart(m: Note) { !m.completed }
  predicate IsEnd(m: Note) { m.completed }
  predicate Resolves(p: Payload) { p.OfMemory? && p.m.PredictionResolved? }

  function NoteOf(p: Payload, loop: Loop): Option<Note> {
    if !p.OfMemory? then None
    else
      match loop
      case Medium =>
        if p.m.LearningStarted? then Some(Note(p.m.iterationId, false))
        else if p.m.LearningCompleted? then Some(Note(p.m.iterationId, true)) else None
      case Slow =>
        if p.m.RevisionStarted? then Some(Note(p.m.revisionId, false))
        else if p.m.RevisionCompleted? then Some(Note(p.m.revisionId, true)) else None
  }

  function NoteIn(loop: Loop): Payload -> Option<Note> {
    (p: Payload) => NoteOf(p, loop)
  }

  /** A loop's transitions among some events. */
  function Trace(ps: seq<Payload>, loop: Loop): seq<Note> {
    Project(ps, NoteIn(loop))
  }

  function OfIteration(r: M.Iteration): Option<Note> { Some(Note(r.id, r.completed)) }
  function OfRevision(r: M.Revision): Option<Note> { Some(Note(r.id, r.completed)) }

  /** A loop's transitions on its ledger. */
  function Ledger(l: M.Learning, loop: Loop): seq<Note> {
    match loop
    case Medium => Project(l.iterations, OfIteration)
    case Slow => Project(l.revisions, OfRevision)
  }

  function Started(notes: seq<Note>): nat { Count(notes, IsStart) }
  function Ended(notes: seq<Note>): nat { Count(notes, IsEnd) }

  function OfId(id: Id): Note -> Option<bool> {
    (m: Note) => if m.id == id then Some(m.completed) else None
  }

  /** One id's transitions, in order. */
  function History(notes: seq<Note>, id: Id): seq<bool> {
    Project(notes, OfId(id))
  }

  /** Every id on the ledger was started once and then completed once. */
  ghost predicate EachOnce(notes: seq<Note>) {
    forall m <- notes :: History(notes, m.id) == [false, true]
  }

  /** What the learners promise of Memory's ledgers. */
  ghost predicate InStep(s: M.MState) {
    var l := s.learning;
    && |M.Resolved(s.predictions)| == Started(Ledger(l, Medium)) == Ended(Ledger(l, Medium)) == |l.heuristics|
    && Started(Ledger(l, Slow)) == Ended(Ledger(l, Slow)) == |l.longTerm| == |l.heuristics| / M.CONSOLIDATION_INTERVAL
    && EachOnce(Ledger(l, Medium)) && EachOnce(Ledger(l, Slow))
  }

  // ---------------------------------------------------------------- what the log keeps, when nothing is lost

  /** Each stage of the cascade has published, in all, what the stage before it has had dispatched. */
  ghost predicate Balanced(done: seq<Payload>, due: seq<Payload>) {
    && Started(Trace(done + due, Medium)) == Count(done, Resolves)
    && Ended(Trace(done + due, Medium)) == Started(Trace(done, Medium))
    && Started(Trace(done + due, Slow)) == Ended(Trace(done, Medium)) / M.CONSOLIDATION_INTERVAL
    && Ended(Trace(done + due, Slow)) == Started(Trace(done, Slow))
  }

  /**
   Done then due: nothing, or [started], or [started, completed]; and a start that is done has its completion due, unless
   a process died over it.
   */
  predicate Paired(done: seq<bool>, due: seq<bool>, whole: bool) {
    || (done == [] && due == [])
    || (done == [] && due == [false])
    || (done == [false] && (due == [true] || (!whole && due == [])))
    || (done == [false, true] && due == [])
  }

  /** Ids in use were minted in earlier deliveries. */
  predicate Follows(done: seq<bool>, due: seq<bool>, id: Id, ticks: nat, whole: bool) {
    Paired(done, due, whole) && (done != [] || due != [] ==> id.Minted? && id.tick < ticks)
  }

  ghost predicate AllFollow(done: seq<Note>, due: seq<Note>, ticks: nat, whole: bool) {
    forall id :: Follows(History(done, id), History(due, id), id, ticks, whole)
  }

  ghost predicate Cascades(done: seq<Payload>, due: seq<Payload>, ticks: nat) {
    && Balanced(done, due)
    && AllFollow(Trace(done, Medium), Trace(due, Medium), ticks, true)
    && AllFollow(Trace(done, Slow), Trace(due, Slow), ticks, true)
  }

  // ---------------------------------------------------------------- one delivery answers another

  predicate Begins(a: Option<Payload>, loop: Loop, tick: nat) {
    a.Some? && NoteOf(a.value, loop).Some? &&
    var m := NoteOf(a.value, loop).value;
    !m.completed && m.id.Minted? && m.id.tick == tick
  }

  /** The event of the loops that a delivery publishes, `heuristics` being how many there were before it. */
  predicate Answers(h: Payload, heuristics: nat, a: Option<Payload>, tick: nat) {
    if Resolves(h) then Begins(a, Medium, tick)
    else match NoteOf(h, Medium)
         case Some(Note(id, false)) => a.Some? && NoteOf(a.value, Medium) == Some(Note(id, true))
         case Some(Note(_, true)) => if M.ShouldConsolidate(heuristics + 1) then Begins(a, Slow, tick) else a == None
         case None =>
           match NoteOf(h, Slow)
           case Some(Note(id, false)) => a.Some? && NoteOf(a.value, Slow) == Some(Note(id, true))
           case _ => a == None
  }

  function Answer(a: Option<Payload>): seq<Payload> {
    match a case None => [] case Some(p) => [p]
  }

  /** As far as the loops are concerned a delivery publishes its answer, and nothing else. */
  ghost predicate Publishes(ps: seq<Payload>, a: Option<Payload>) {
    && (forall loop :: Trace(ps, loop) == Trace(Answer(a), loop))
    && (forall p <- Answer(a) :: p.OfMemory?)
  }

  lemma TracesJoin(a: seq<Payload>, b: seq<Payload>, loop: Loop)
    ensures Trace(a + b, loop) == Trace(a, loop) + Trace(b, loop)
    ensures Started(Trace(a + b, loop)) == Started(Trace(a, loop)) + Started(Trace(b, loop))
    ensures Ended(Trace(a + b, loop)) == Ended(Trace(a, loop)) + Ended(Trace(b, loop))
  {
    hide Project, Count;
    ProjectConcat(a, b, NoteIn(loop));
    CountConcat(Trace(a, loop), Trace(b, loop), IsStart);
    CountConcat(Trace(a, loop), Trace(b, loop), IsEnd);
  }

  lemma TraceOne(p: Payload, loop: Loop)
    ensures Trace([p], loop) == match NoteOf(p, loop) case None => [] case Some(m) => [m]
    ensures Started(Trace([p], loop)) == if NoteOf(p, loop).Some? && !NoteOf(p, loop).value.completed then 1 else 0
    ensures Ended(Trace([p], loop)) == if NoteOf(p, loop).Some? && NoteOf(p, loop).value.completed then 1 else 0
  {
    ProjectOne(p, NoteIn(loop));
    if NoteOf(p, loop).Some? {
      CountOne(NoteOf(p, loop).value, IsStart);
      CountOne(NoteOf(p, loop).value, IsEnd);
    }
  }

  lemma TraceNone(loop: Loop)
    ensures Trace([], loop) == [] && Started([]) == 0 && Ended([]) == 0
  {
  }

  lemma OneMoreThird(n: nat)
    ensures (n + 1) / 3 == n / 3 + if (n + 1) % 3 == 0 then 1 else 0
  {
  }

  lemma BalanceKept(done: seq<Payload>, due: seq<Payload>, h: Payload, pubs: seq<Payload>, a: Option<Payload>, tick: nat)
    requires Balanced(done, [h] + due) && Publishes(pubs, a) && Answers(h, Ended(Trace(done, Medium)), a, tick)
    ensures Balanced(done + [h], due + pubs)
  {
    hide Count, Trace;
    var log := done + ([h] + due);
    assert (done + [h]) + (due + pubs) == log + pubs;
    forall loop ensures Started(Trace(log + pubs, loop)) == Started(Trace(log, loop)) + Started(Trace(Answer(a), loop))
                        && Ended(Trace(log + pubs, loop)) == Ended(Trace(log, loop)) + Ended(Trace(Answer(a), loop))
                        && Started(Trace(done + [h], loop)) == Started(Trace(done, loop)) + Started(Trace([h], loop))
                        && Ended(Trace(done + [h], loop)) == Ended(Trace(done, loop)) + Ended(Trace([h], loop)) {
      TracesJoin(log, pubs, loop);
      TracesJoin(done, [h], loop);
    }
    CountSnoc(done, h, Resolves);
    TraceOne(h, Medium);
    TraceOne(h, Slow);
    AnswerCounts(a);
    OneMoreThird(Ended(Trace(done, Medium)));
  }

  lemma AnswerCounts(a: Option<Payload>)
    ensures forall loop :: Started(Trace(Answer(a), loop)) == if a.Some? && NoteOf(a.value, loop).Some? && !NoteOf(a.value, loop).value.completed then 1 else 0
    ensures forall loop :: Ended(Trace(Answer(a), loop)) == if a.Some? && NoteOf(a.value, loop).Some? && NoteOf(a.value, loop).value.completed then 1 else 0
  {
    hide Trace, Count;
    forall loop ensures Started(Trace(Answer(a), loop)) == if a.Some? && NoteOf(a.value, loop).Some? && !NoteOf(a.value, loop).value.completed then 1 else 0 {
      if a.Some? { TraceOne(a.value, loop); } else { TraceNone(loop); }
    }
    forall loop ensures Ended(Trace(Answer(a), loop)) == if a.Some? && NoteOf(a.value, loop).Some? && NoteOf(a.value, loop).value.completed then 1 else 0 {
      if a.Some? { TraceOne(a.value, loop); } else { TraceNone(loop); }
    }
  }

  function Mine(m: Option<Note>, id: Id): seq<bool> {
    if m.Some? && m.value.id == id then [m.value.completed] else []
  }

  /** One id's transitions through a delivery. */
  lemma FollowsOn(done: seq<bool>, heard: seq<bool>, rest: seq<bool>, sent: seq<bool>, id: Id, ticks: nat, whole: bool)
    requires Follows(done, heard + rest, id, ticks, whole)
    requires heard == [] || heard == [false] || heard == [true]
    requires heard == [false] ==> sent == [true] || (!whole && sent == [])
    requires heard == [true] ==> sent == []
    requires heard == [] ==> sent == [] || (sent == [false] && id.Minted? && id.tick == ticks)
    ensures Follows(done + heard, rest + sent, id, ticks + 1, whole)
  {
    if heard != [] {
      assert (heard + rest)[0] == heard[0];
      assert rest == (heard + rest)[1..] == [];
    } else {
      assert heard + rest == rest && done + heard == done;
    }
  }

  /** What a delivery logged of its answer: all of it, unless it was cut short. */
  ghost predicate Logs(ps: seq<Payload>, a: Option<Payload>, loop: Loop, whole: bool) {
    Trace(ps, loop) == Trace(Answer(a), loop) || (!whole && Trace(ps, loop) == [])
  }

  /** The two-stage lemma both loops rest on: a start is answered by its own completion, and new ids are this delivery's. */
  lemma PairsKept(done: seq<Payload>, due: seq<Payload>, h: Payload, pubs: seq<Payload>, a: Option<Payload>, loop: Loop,
        heuristics: nat, tick: nat, whole: bool)
    requires AllFollow(Trace(done, loop), Trace([h] + due, loop), tick, whole)
    requires Logs(pubs, a, loop, whole) && Answers(h, heuristics, a, tick)
    ensures AllFollow(Trace(done + [h], loop), Trace(due + pubs, loop), tick + 1, whole)
  {
    hide Project, Trace, Follows, Count;
    TracesJoin(done, [h], loop);
    TracesJoin([h], due, loop);
    TracesJoin(due, pubs, loop);
    forall id ensures Follows(History(Trace(done + [h], loop), id), History(Trace(due + pubs, loop), id), id, tick + 1, whole) {
      ProjectConcat(Trace(done, loop), Trace([h], loop), OfId(id));
      ProjectConcat(Trace([h], loop), Trace(due, loop), OfId(id));
      ProjectConcat(Trace(due, loop), Trace(pubs, loop), OfId(id));
      HistoryOne(h, loop, id);
      HistoryOfAnswer(a, loop, id);
      assert History([], id) == [] by { ProjectNothing([], OfId(id)); }
      assert Follows(History(Trace(done, loop), id), History(Trace([h] + due, loop), id), id, tick, whole);
      HeardAndSent(h, heuristics, a, loop, id, tick);
      FollowsOn(History(Trace(done, loop), id), Mine(NoteOf(h, loop), id), History(Trace(due, loop), id),
                History(Trace(pubs, loop), id), id, tick, whole);
    }
  }

  lemma HistoryOne(p: Payload, loop: Loop, id: Id)
    ensures History(Trace([p], loop), id) == Mine(NoteOf(p, loop), id)
  {
    hide Count;
    TraceOne(p, loop);
    if NoteOf(p, loop).Some? { ProjectOne(NoteOf(p, loop).value, OfId(id)); }
  }

  lemma HistoryOfAnswer(a: Option<Payload>, loop: Loop, id: Id)
    ensures History(Trace(Answer(a), loop), id) == Mine(if a.Some? then NoteOf(a.value, loop) else None, id)
  {
    if a.Some? { HistoryOne(a.value, loop, id); }
  }

  lemma HeardAndSent(h: Payload, heuristics: nat, a: Option<Payload>, loop: Loop, id: Id, tick: nat)
    requires Answers(h, heuristics, a, tick)
    ensures var heard, sent := Mine(NoteOf(h, loop), id), Mine(if a.Some? then NoteOf(a.value, loop) else None, id);
            && (heard == [] || heard == [false] || heard == [true])
            && (heard == [false] ==> sent == [true]) && (heard == [true] ==> sent == [])
            && (heard == [] ==> sent == [] || (sent == [false] && id.Minted? && id.tick == tick))
  {
  }

  lemma CascadeKept(done: seq<Payload>, due: seq<Payload>, pubs: seq<Payload>, a: Option<Payload>, tick: nat)
    requires Cascades(done, due, tick) && due != []
    requires Publishes(pubs, a) && Answers(due[0], Ended(Trace(done, Medium)), a, tick)
    ensures Cascades(done + [due[0]], due[1..] + pubs, tick + 1)
  {
    hide Balanced, AllFollow, Trace, Ended, Answers, Publishes;
    assert due == [due[0]] + due[1..];
    BalanceKept(done, due[1..], due[0], pubs, a, tick);
    forall loop ensures Logs(pubs, a, loop, true) { PublishedIsLogged(pubs, a, loop); }
    PairsKept(done, due[1..], due[0], pubs, a, Medium, Ended(Trace(done, Medium)), tick, true);
    PairsKept(done, due[1..], due[0], pubs, a, Slow, Ended(Trace(done, Medium)), tick, true);
  }

  lemma PublishedIsLogged(ps: seq<Payload>, a: Option<Payload>, loop: Loop)
    requires Publishes(ps, a)
    ensures Logs(ps, a, loop, true)
  {
    hide Trace;
  }

  /** An event of no loop's concern joins those due. */
  lemma CascadeJoined(done: seq<Payload>, due: seq<Payload>, body: Payload, ticks: nat)
    requires Cascades(done, due, ticks) && !body.OfMemory?
    ensures Cascades(done, due + [body], ticks)
  {
    hide AllFollow, Trace, Count;
    assert done + (due + [body]) == done + due + [body];
    forall loop ensures Trace(due + [body], loop) == Trace(due, loop)
                        && Started(Trace(done + (due + [body]), loop)) == Started(Trace(done + due, loop))
                        && Ended(Trace(done + (due + [body]), loop)) == Ended(Trace(done + due, loop)) {
      TraceOne(body, loop);
      TracesJoin(due, [body], loop);
      TracesJoin(done + due, [body], loop);
      assert Trace(due, loop) + [] == Trace(due, loop);
    }
  }

  // ---------------------------------------------------------------- what Memory publishes

  lemma ForeignTrace(ps: seq<Payload>, loop: Loop)
    requires forall p <- ps :: NoteOf(p, loop) == None
    ensures Trace(ps, loop) == []
  {
    ProjectNothing(ps, NoteIn(loop));
  }

  ghost predicate Silent(ps: seq<Payload>) {
    forall p <- ps :: !(p.OfMemory? && M.OfLoops(p.m))
  }

  /** The answer among whatever else is published. */
  lemma AmongOthers(before: seq<Payload>, a: Option<Payload>, after: seq<Payload>)
    requires Silent(before) && Silent(after) && forall p <- Answer(a) :: p.OfMemory?
    ensures Publishes(before + Answer(a) + after, a)
  {
    hide Trace, Count;
    forall loop ensures Trace(before + Answer(a) + after, loop) == Trace(Answer(a), loop) {
      ForeignTrace(before, loop);
      ForeignTrace(after, loop);
      TracesJoin(before + Answer(a), after, loop);
      TracesJoin(before, Answer(a), loop);
    }
  }

  /** Everything a handler of Memory's looks up is there. */
  ghost predicate Grounded(s: M.MState, p: Payload) {
    p.OfMemory? ==> O.LookUpsSucceed(s, p.m)
  }

  lemma LoopsAnswer(n: Notation, s: M.MState, m: MemoryEvent, time: real, tick: nat) returns (a: Option<Payload>)
    requires Grounded(s, OfMemory(m)) && M.OfLoops(m)
    ensures M.Learn(n, s.learning, s.predictions, m, time, tick).published == Answer(a)
    ensures Answers(OfMemory(m), |s.learning.heuristics|, a, tick) && forall p <- Answer(a) :: p.OfMemory?
  {
    hide M.MeanError, M.Consensus, M.Confidence, M.Resolved, M.Classify, M.FirstIteration, M.FirstRevision, By;
    var ps := M.Learn(n, s.learning, s.predictions, m, time, tick).published;
    a := if ps == [] then None else Some(ps[0]);
  }

  lemma RescoringIsSilent(s: M.MState, resolved: seq<M.Prediction>, sensors: seq<string>)
    ensures Silent(M.RescoredAll(s, resolved, sensors))
  {
    hide M.ComputeReliability, M.Attributable, By;
  }

  lemma ResolutionAnswers(s: M.MState, m: MemoryEvent, time: real, tick: nat) returns (a: Option<Payload>, after: seq<Payload>)
    requires m.PredictionResolved? && Grounded(s, OfMemory(m))
    ensures M.OnPredictionResolved(s, m, time, tick).published == Answer(a) + after && Silent(after)
    ensures Answers(OfMemory(m), |s.learning.heuristics|, a, tick) && forall p <- Answer(a) :: p.OfMemory?
  {
    hide M.RescoredAll, M.SensorsOf, M.Resolved, M.FirstPrediction, By;
    var r := M.OnPredictionResolved(s, m, time, tick);
    a, after := Some(r.published[0]), r.published[1..];
    RescoringIsSilent(r.state, M.Resolved(r.state.predictions), M.SensorsOf(r.state, m.planId));
    assert r.published == [r.published[0]] + after;
  }

  lemma OthersAreSilent(n: Notation, s: M.MState, e: Event, tick: nat)
    requires !(e.body.OfMemory? && M.OfLoops(e.body.m)) && !Resolves(e.body)
    ensures var r := M.Step(n, s, e, tick);
            Silent(r.published) && Answers(e.body, |s.learning.heuristics|, None, tick)
  {
    hide M.Learn, M.OnPredictionResolved, M.Resolved, By;
  }

  lemma MemoryAnswers(n: Notation, s: M.MState, e: Event, tick: nat) returns (a: Option<Payload>, after: seq<Payload>)
    requires Grounded(s, e.body)
    ensures M.Step(n, s, e, tick).published == Answer(a) + after && Silent(after)
    ensures Answers(e.body, |s.learning.heuristics|, a, tick) && forall p <- Answer(a) :: p.OfMemory?
  {
    hide M.Learn, M.OnPredictionResolved, M.Record, M.Resolved, By, Answers, Grounded;
    after := [];
    if e.body.OfMemory? && M.OfLoops(e.body.m) {
      a := LoopsAnswer(n, s, e.body.m, e.time, tick);
      assert Answer(a) + [] == Answer(a);
    } else if e.body.OfMemory? && e.body.m.PredictionResolved? {
      a, after := ResolutionAnswers(s, e.body.m, e.time, tick);
    } else {
      OthersAreSilent(n, s, e, tick);
      a, after := None, M.Step(n, s, e, tick).published;
      assert Answer(a) + after == after;
    }
  }

  lemma DeliveryAnswers(v: Setting, o: OState, e: Event, tick: nat) returns (a: Option<Payload>)
    requires Grounded(o.memory, e.body)
    ensures Publishes(Publications(v, o, e, tick), a) && Answers(e.body, |o.memory.learning.heuristics|, a, tick)
  {
    hide P.Step, W.Step, X.Step, G.Step, T.Step, M.Step, Publishes, Answers, Grounded;
    var after;
    a, after := MemoryAnswers(Text(v), o.memory, e, tick);
    EachPublishesItsOwn(v, o, e, tick);
    var before := P.Step(o.perception, e).published + W.Step(o.worldModel, e).published + X.Step(Text(v), o.executive, e, tick).published
                  + G.Step(v.governor, o.governor, e, tick).published + T.Step(Text(v), v.behaviour, o.executor, e, tick).published;
    assert Publications(v, o, e, tick) == before + Answer(a) + after;
    AmongOthers(before, a, after);
  }

  // ---------------------------------------------------------------- what the ledgers count

  /** The ledgers hold exactly what the events dispatched so far say. */
  ghost predicate Recounted(s: M.MState, past: seq<Payload>) {
    && |M.Resolved(s.predictions)| == Count(past, Resolves)
    && |s.learning.heuristics| == Ended(Trace(past, Medium))
    && |s.learning.longTerm| == Ended(Trace(past, Slow))
    && Ledger(s.learning, Medium) == Trace(past, Medium)
    && Ledger(s.learning, Slow) == Trace(past, Slow)
  }

  function Noted(p: Payload, loop: Loop): seq<Note> {
    match NoteOf(p, loop) case None => [] case Some(m) => [m]
  }

  lemma LoopsRecord(n: Notation, s: M.MState, m: MemoryEvent, time: real, tick: nat)
    requires Grounded(s, OfMemory(m)) && M.OfLoops(m)
    ensures var l, l', p := s.learning, M.Learn(n, s.learning, s.predictions, m, time, tick).state, OfMemory(m);
            && (forall loop :: Ledger(l', loop) == Ledger(l, loop) + Noted(p, loop))
            && |l'.heuristics| == |l.heuristics| + (if m.LearningCompleted? then 1 else 0)
            && |l'.longTerm| == |l.longTerm| + (if m.RevisionCompleted? then 1 else 0)
  {
    hide M.MeanError, M.Consensus, M.Confidence, M.Resolved, M.Classify, M.FirstIteration, M.FirstRevision, By, Project;
    var l, l' := s.learning, M.Learn(n, s.learning, s.predictions, m, time, tick).state;
    if m.LearningStarted? || m.LearningCompleted? {
      ProjectSnoc(l.iterations, l'.iterations[|l.iterations|], OfIteration);
    } else {
      ProjectSnoc(l.revisions, l'.revisions[|l.revisions|], OfRevision);
    }
    assert Ledger(l, Medium) + [] == Ledger(l, Medium) && Ledger(l, Slow) + [] == Ledger(l, Slow);
  }

  lemma ResolutionsRecord(n: Notation, s: M.MState, e: Event, tick: nat)
    requires Grounded(s, e.body)
    ensures |M.Resolved(M.Step(n, s, e, tick).state.predictions)| == |M.Resolved(s.predictions)| + if Resolves(e.body) then 1 else 0
  {
    hide M.Learn, M.RescoredAll, M.SensorsOf, M.Record, M.FirstPrediction, By, Filter;
    var s' := M.Step(n, s, e, tick).state;
    if e.body.OfMemory? && !M.OfLoops(e.body.m) && (e.body.m.PredictionResolved? || e.body.m.PredictionRecorded?) {
      FilterSnoc(s.predictions, s'.predictions[|s.predictions|], M.IsResolved);
    }
  }

  lemma OthersRecordNothing(n: Notation, s: M.MState, e: Event, tick: nat)
    requires !(e.body.OfMemory? && M.OfLoops(e.body.m))
    ensures M.Step(n, s, e, tick).state.learning == s.learning
  {
    hide M.Learn, M.RescoredAll, M.SensorsOf, M.Record, M.FirstPrediction, M.Resolved, By;
  }

  lemma MemoryRecounts(n: Notation, s: M.MState, past: seq<Payload>, e: Event, tick: nat)
    requires Recounted(s, past) && Grounded(s, e.body)
    ensures Recounted(M.Step(n, s, e, tick).state, past + [e.body])
  {
    hide M.Step, M.Resolved, Trace, Ledger, Count, Grounded;
    var s' := M.Step(n, s, e, tick).state;
    ResolutionsRecord(n, s, e, tick);
    CountSnoc(past, e.body, Resolves);
    forall loop ensures Trace(past + [e.body], loop) == Trace(past, loop) + Noted(e.body, loop)
                        && Ended(Trace(past + [e.body], loop)) == Ended(Trace(past, loop)) + Ended(Noted(e.body, loop)) {
      TracesJoin(past, [e.body], loop);
      TraceOne(e.body, loop);
    }
    NotedEnds(e.body);
    if e.body.OfMemory? && M.OfLoops(e.body.m) {
      StepOfLoops(n, s, e, tick);
      LoopsRecord(n, s, e.body.m, e.time, tick);
    } else {
      OthersRecordNothing(n, s, e, tick);
      assert Ledger(s.learning, Medium) + [] == Ledger(s.learning, Medium) && Ledger(s.learning, Slow) + [] == Ledger(s.learning, Slow);
    }
  }

  lemma NotedEnds(p: Payload)
    ensures Ended(Noted(p, Medium)) == if p.OfMemory? && p.m.LearningCompleted? then 1 else 0
    ensures Ended(Noted(p, Slow)) == if p.OfMemory? && p.m.RevisionCompleted? then 1 else 0
  {
    hide Count;
    CountNone([], IsEnd);
    if NoteOf(p, Medium).Some? { CountOne(NoteOf(p, Medium).value, IsEnd); }
    if NoteOf(p, Slow).Some? { CountOne(NoteOf(p, Slow).value, IsEnd); }
  }

  lemma StepOfLoops(n: Notation, s: M.MState, e: Event, tick: nat)
    requires e.body.OfMemory? && M.OfLoops(e.body.m)
    ensures M.Step(n, s, e, tick).state.learning == M.Learn(n, s.learning, s.predictions, e.body.m, e.time, tick).state
  {
    hide M.Learn;
  }

  // ---------------------------------------------------------------- over whole runs

  /** As long as nothing is dropped: openings in order, ledgers that match the log. */
  ghost predicate Counted(p: Point) {
    O.InOrder(p) && Recounted(p.o.memory, p.past)
  }

  lemma HeadIsGrounded(p: Point)
    requires O.InOrder(p) && p.queue != []
    ensures Grounded(p.o.memory, p.queue[0])
  {
    hide O.InOrder, M.FirstIteration, M.FirstRevision, M.FirstPrediction;
    if O.Closes(p.queue[0]).Some? && p.queue[0].OfMemory? {
      var s, m := p.o.memory, p.queue[0].m;
      O.HeadIsFound(p);
      if m.LearningCompleted? { O.IterationFound(s.learning.iterations, m.iterationId); }
      if m.RevisionCompleted? { O.RevisionFound(s.learning.revisions, m.revisionId); }
      if m.PredictionResolved? { O.PredictionFound(s.predictions, m.predictionId); }
    }
  }

  lemma HeadRecounts(v: Setting, p: Point, e: Event)
    requires Counted(p) && p.queue != [] && HeadIs(p, e)
    ensures Recounted(Successor(v, p.o, e, p.ticks).memory, p.past + [e.body])
  {
    hide P.Step, W.Step, X.Step, G.Step, T.Step, M.Step, Recounted, O.InOrder, Grounded;
    HeadIsGrounded(p);
    MemoryRecounts(Text(v), p.o.memory, p.past, e, p.ticks);
  }

  lemma NothingCounted()
    ensures Recounted(Organism.Initial().memory, [])
  {
  }

  lemma StepRecounts(v: Setting, p: Point, move: Move, e: Event)
    requires Counted(p) && Possible(p, move) && Affords(NoDrops, p, move) && HeadIs(p, e)
    ensures Counted(Stepped(v, p, move, e))
  {
    hide Recounted, O.InOrder, Publications, Successor, Outside;
    O.StepStaysInOrder(v, p, move, e);
    NothingCounted();
    match move
    case Next => HeadRecounts(v, p, e);
    case Hear => HeadRecounts(v, p, e);
    case Configure(o) => ConfiguringRecounts(p, o);
    case _ =>
  }

  lemma ConfiguringRecounts(p: Point, o: OState)
    requires Reconfigures(p.o, o)
    ensures o.memory == p.o.memory
  {
    hide BeliefsInRange;
  }

  lemma RunsRecount(v: Setting, moves: seq<Move>)
    requires Legal(v, moves) && Loses(v, moves, NoDrops)
    ensures Counted(Here(v, moves))
  {
    hide Reached, Legal, Loses, Counted, Possible, Affords, Stepped;
    var inv := (p: Point) => Counted(p);
    assert Counted(Birth()) by { BornCounted(); }
    forall p, move, e: Event | inv(p) && Possible(p, move) && Affords(NoDrops, p, move) && HeadIs(p, e)
      ensures inv(Stepped(v, p, move, e)) {
      StepRecounts(v, p, move, e);
    }
    RunsKeep(v, moves, NoDrops, inv);
  }

  lemma BornCounted()
    ensures Counted(Birth())
  {
    O.BornInOrder();
    NothingCounted();
  }

  ghost predicate Cascading(p: Point) {
    Counted(p) && Cascades(Done(p), Due(p), p.ticks)
  }

  lemma StepCascades(v: Setting, p: Point, move: Move, e: Event)
    requires Cascading(p) && Possible(p, move) && Affords(NoLoss, p, move) && HeadIs(p, e)
    ensures Cascading(Stepped(v, p, move, e))
  {
    hide Counted, Cascades, Outside, Reconfigures, Publications, Successor, Done, Due;
    StepRecounts(v, p, move, e);
    LosslessStep(v, p, move, e);
    match move
    case Next => DeliveryCascades(v, p, e);
    case Enter(body, _) => OutsideIsForeign(p.o, body); CascadeJoined(Done(p), Due(p), body, p.ticks);
    case Hear => CascadeAges(Done(p), Due(p), p.ticks);
    case _ =>
  }

  lemma OutsideIsForeign(o: OState, body: Payload)
    requires Outside(o, body)
    ensures !body.OfMemory?
  {
  }

  lemma CascadeAges(done: seq<Payload>, due: seq<Payload>, ticks: nat)
    requires Cascades(done, due, ticks)
    ensures Cascades(done, due, ticks + 1)
  {
    hide Balanced, Trace, History;
  }

  lemma DeliveryCascades(v: Setting, p: Point, e: Event)
    requires Cascading(p) && !p.replaying && p.queue != [] && HeadIs(p, e)
    ensures var p' := Moved(v, p, e); Cascades(p'.past, p'.queue, p'.ticks)
  {
    hide Cascades, O.InOrder, Publications, Successor, Answers, Publishes, Grounded, Count, Trace, M.Resolved;
    HeadIsGrounded(p);
    var a := DeliveryAnswers(v, p.o, e, p.ticks);
    CascadeKept(p.past, p.queue, Publications(v, p.o, e, p.ticks), a, p.ticks);
  }

  lemma RunsCascade(v: Setting, moves: seq<Move>)
    requires Legal(v, moves) && Loses(v, moves, NoLoss)
    ensures Cascading(Here(v, moves))
  {
    hide Reached, Legal, Loses, Cascading, Possible, Affords, Stepped;
    var inv := (p: Point) => Cascading(p);
    assert Cascading(Birth()) by { BornCascading(); }
    forall p, move, e: Event | inv(p) && Possible(p, move) && Affords(NoLoss, p, move) && HeadIs(p, e)
      ensures inv(Stepped(v, p, move, e)) {
      StepCascades(v, p, move, e);
    }
    RunsKeep(v, moves, NoLoss, inv);
  }

  lemma BornCascading()
    ensures Cascading(Birth())
  {
    BornCounted();
  }

  // ---------------------------------------------------------------- when processes die over what is due

  /** As long as nothing is dropped: nothing is started twice, and whatever was completed had been started. */
  ghost predicate Tallied(p: Point) {
    Counted(p) && forall loop :: AllFollow(Trace(Done(p), loop), Trace(Due(p), loop), p.ticks, false)
  }

  /** What was due when a process died is done with, and nothing follows it. */
  lemma DyingKeepsPairs(done: seq<Payload>, due: seq<Payload>, loop: Loop, ticks: nat)
    requires AllFollow(Trace(done, loop), Trace(due, loop), ticks, false)
    ensures AllFollow(Trace(done + due, loop), Trace([], loop), ticks, false)
  {
    hide Project, Trace, Count;
    TracesJoin(done, due, loop);
    TraceNone(loop);
    forall id ensures Follows(History(Trace(done + due, loop), id), History([], id), id, ticks, false) {
      ProjectConcat(Trace(done, loop), Trace(due, loop), OfId(id));
      ProjectNothing([], OfId(id));
      assert Follows(History(Trace(done, loop), id), History(Trace(due, loop), id), id, ticks, false);
    }
  }

  lemma PairsAge(done: seq<Note>, due: seq<Note>, ticks: nat)
    requires AllFollow(done, due, ticks, false)
    ensures AllFollow(done, due, ticks + 1, false)
  {
    hide History;
    forall id ensures Follows(History(done, id), History(due, id), id, ticks + 1, false) {
      assert Follows(History(done, id), History(due, id), id, ticks, false);
    }
  }

  lemma TakenIsLogged(ps: seq<Payload>, a: Option<Payload>, n: nat, loop: Loop)
    requires Publishes(ps, a)
    ensures Logs(Taken(ps, n), a, loop, false)
  {
    hide Trace, Count;
    var taken := Taken(ps, n);
    assert ps == taken + ps[|taken|..];
    TracesJoin(taken, ps[|taken|..], loop);
    AnswerIsOne(a, loop);
    var all, part, rest := Trace(Answer(a), loop), Trace(taken, loop), Trace(ps[|taken|..], loop);
    assert all == part + rest;
    if part != [] { assert all[0] == part[0] && part == all; }
  }

  lemma AnswerIsOne(a: Option<Payload>, loop: Loop)
    ensures |Trace(Answer(a), loop)| <= 1
  {
    hide Count;
    if a.Some? { TraceOne(a.value, loop); }
  }

  /** A delivery, whole or cut short, of which `logged` is in the log. */
  lemma DeliveryKeepsPairs(v: Setting, p: Point, e: Event, n: nat, loop: Loop)
    requires Tallied(p) && !p.replaying && p.queue != [] && HeadIs(p, e)
    ensures var pubs := Publications(v, p.o, e, p.ticks);
            && AllFollow(Trace(p.past + [e.body], loop), Trace(p.queue[1..] + pubs, loop), p.ticks + 1, false)
            && AllFollow(Trace(p.past + [e.body], loop), Trace(p.queue[1..] + Taken(pubs, n), loop), p.ticks + 1, false)
  {
    hide AllFollow, O.InOrder, Publications, Answers, Publishes, Grounded, Count, Trace, Logs, Recounted;
    HeadIsGrounded(p);
    var pubs := Publications(v, p.o, e, p.ticks);
    var heuristics := |p.o.memory.learning.heuristics|;
    var a := DeliveryAnswers(v, p.o, e, p.ticks);
    assert p.queue == [e.body] + p.queue[1..];
    assert AllFollow(Trace(Done(p), loop), Trace(Due(p), loop), p.ticks, false);
    WholeIsLogged(pubs, a, loop);
    TakenIsLogged(pubs, a, n, loop);
    PairsKept(p.past, p.queue[1..], e.body, pubs, a, loop, heuristics, p.ticks, false);
    PairsKept(p.past, p.queue[1..], e.body, Taken(pubs, n), a, loop, heuristics, p.ticks, false);
  }

  lemma WholeIsLogged(ps: seq<Payload>, a: Option<Payload>, loop: Loop)
    requires Publishes(ps, a)
    ensures Logs(ps, a, loop, false)
  {
    hide Trace;
  }

  lemma EnteringKeepsPairs(done: seq<Payload>, due: seq<Payload>, body: Payload, loop: Loop, ticks: nat)
    requires AllFollow(Trace(done, loop), Trace(due, loop), ticks, false) && !body.OfMemory?
    ensures AllFollow(Trace(done, loop), Trace(due + [body], loop), ticks, false)
  {
    hide AllFollow, Trace, Count;
    TraceOne(body, loop);
    TracesJoin(due, [body], loop);
    assert Trace(due, loop) + [] == Trace(due, loop);
  }

  /** A torn delivery leaves its successor everything logged before it and what it had logged itself. */
  lemma TearingKeepsPairs(v: Setting, p: Point, e: Event, n: nat, loop: Loop)
    requires Tallied(p) && !p.replaying && p.queue != [] && HeadIs(p, e)
    ensures var p' := Torn(v, p, e, n); AllFollow(Trace(Done(p'), loop), Trace(Due(p'), loop), p'.ticks, false)
  {
    hide AllFollow, Publications, Trace, Counted;
    DeliveryKeepsPairs(v, p, e, n, loop);
    var logged := Taken(Publications(v, p.o, e, p.ticks), n);
    DyingKeepsPairs(p.past + [e.body], p.queue[1..] + logged, loop, p.ticks + 1);
    LogTurns(p);
    assert p.past + [e.body] + (p.queue[1..] + logged) == Log(p) + logged == Done(Torn(v, p, e, n));
  }

  lemma StepStaysTallied(v: Setting, p: Point, move: Move, e: Event)
    requires Tallied(p) && Possible(p, move) && Affords(NoDrops, p, move) && HeadIs(p, e)
    ensures Tallied(Stepped(v, p, move, e))
  {
    hide Counted, AllFollow, Trace, Outside, Reconfigures, Publications, Successor;
    StepRecounts(v, p, move, e);
    var p' := Stepped(v, p, move, e);
    forall loop ensures AllFollow(Trace(Done(p'), loop), Trace(Due(p'), loop), p'.ticks, false) {
      assert AllFollow(Trace(Done(p), loop), Trace(Due(p), loop), p.ticks, false);
      match move {
        case Next => DeliveryKeepsPairs(v, p, e, 0, loop);
        case Enter(body, _) => OutsideIsForeign(p.o, body); EnteringKeepsPairs(p.past, p.queue, body, loop, p.ticks);
        case Reboot => DyingKeepsPairs(Done(p), Due(p), loop, p.ticks); RebootingIsDying(p);
        case Tear(n) => TearingKeepsPairs(v, p, e, n, loop);
        case Hear => PairsAge(Trace(Done(p), loop), Trace(Due(p), loop), p.ticks); HearingDoesNothing(v, p, e);
        case Configure(o) =>
      }
    }
  }

  lemma BornTallied()
    ensures Tallied(Birth())
  {
    hide Counted;
    BornCounted();
    forall loop ensures AllFollow(Trace(Done(Birth()), loop), Trace(Due(Birth()), loop), 0, false) { TraceNone(loop); }
  }

  lemma RunsStayTallied(v: Setting, moves: seq<Move>)
    requires Legal(v, moves) && Loses(v, moves, NoDrops)
    ensures Tallied(Here(v, moves))
  {
    hide Reached, Legal, Loses, Tallied, Possible, Affords, Stepped;
    var inv := (p: Point) => Tallied(p);
    BornTallied();
    forall p, move, e: Event | inv(p) && Possible(p, move) && Affords(NoDrops, p, move) && HeadIs(p, e)
      ensures inv(Stepped(v, p, move, e)) {
      StepStaysTallied(v, p, move, e);
    }
    RunsKeep(v, moves, NoDrops, inv);
  }

  // ---------------------------------------------------------------- what the ledgers hold once all is dispatched

  /** Nothing is on a ledger twice over or half done. */
  lemma WholeOnce(notes: seq<Note>, ticks: nat)
    requires AllFollow(notes, [], ticks, true)
    ensures EachOnce(notes)
  {
    forall m | m in notes ensures History(notes, m.id) == [false, true] {
      var i :| 0 <= i < |notes| && notes[i] == m;
      ProjectMember(notes, OfId(m.id), i);
      assert Follows(History(notes, m.id), History([], m.id), m.id, ticks, true);
    }
  }

  /** A log's transitions of a loop, when some are still due, are each made once exactly when no start is among those due. */
  lemma OnceIffNoStartDue(done: seq<Payload>, due: seq<Payload>, loop: Loop, ticks: nat)
    requires AllFollow(Trace(done, loop), Trace(due, loop), ticks, true)
    ensures EachOnce(Trace(done + due, loop)) <==> Started(Trace(due, loop)) == 0
  {
    hide Project, Count, Trace;
    TracesJoin(done, due, loop);
    var d, q, all := Trace(done, loop), Trace(due, loop), Trace(done + due, loop);
    forall id ensures History(all, id) == History(d, id) + History(q, id) { ProjectConcat(d, q, OfId(id)); }
    if Started(q) == 0 {
      forall m | m in all ensures History(all, m.id) == [false, true] {
        assert Follows(History(d, m.id), History(q, m.id), m.id, ticks, true);
        SomethingSaid(all, m);
        if History(q, m.id) == [false] { StartIsCounted(q, m.id); }
      }
    } else {
      var m := AStart(q);
      assert Follows(History(d, m.id), History(q, m.id), m.id, ticks, true);
      SomethingSaid(q, m);
      StartSaid(q, m);
      assert m in all;
    }
  }

  lemma SomethingSaid(notes: seq<Note>, m: Note)
    requires m in notes
    ensures History(notes, m.id) != []
  {
    var i :| 0 <= i < |notes| && notes[i] == m;
    ProjectMember(notes, OfId(m.id), i);
  }

  lemma StartIsCounted(notes: seq<Note>, id: Id)
    requires History(notes, id) == [false]
    ensures Started(notes) > 0
  {
    var i := ProjectOrigin(notes, OfId(id), false);
    FilterMembers(notes, IsStart);
    assert notes[i] in Filter(notes, IsStart);
  }

  lemma AStart(notes: seq<Note>) returns (m: Note)
    requires Started(notes) > 0
    ensures m in notes && !m.completed
  {
    FilterMembers(notes, IsStart);
    m := Filter(notes, IsStart)[0];
    assert m in Filter(notes, IsStart);
  }

  lemma StartSaid(notes: seq<Note>, m: Note)
    requires m in notes && !m.completed
    ensures false in History(notes, m.id)
  {
    var i :| 0 <= i < |notes| && notes[i] == m;
    ProjectMember(notes, OfId(m.id), i);
  }

  /**
   While nothing is lost, whenever the queue has drained: as many resolved predictions as started iterations,
   completed iterations and heuristics; a third as many consolidations and pieces of long-term knowledge, rounded
   down; and every iteration and revision on its ledger was started once and then completed once.
   */
  lemma LearningIsInStep(v: Setting, moves: seq<Move>)
    requires Legal(v, moves) && Loses(v, moves, NoLoss) && Here(v, moves).queue == []
    ensures InStep(Here(v, moves).o.memory)
  {
    hide Here, Legal, Loses, Count, Trace, Ledger, AllFollow, EachOnce, M.Resolved, O.InOrder;
    var p := Here(v, moves);
    RunsCascade(v, moves);
    assert Done(p) == p.past && Due(p) == [] && p.past + [] == p.past;
    TraceNone(Medium);
    TraceNone(Slow);
    WholeOnce(Trace(p.past, Medium), p.ticks);
    WholeOnce(Trace(p.past, Slow), p.ticks);
  }

  function Third(n: int): int { n / M.CONSOLIDATION_INTERVAL }

  /** The counts of a log whose process died with some of it still due. */
  lemma CutShort(done: seq<Payload>, due: seq<Payload>, ticks: nat, s: M.MState)
    requires Cascades(done, due, ticks) && Recounted(s, done + due)
    ensures InStep(s) <==>
            Count(due, Resolves) == 0 && Started(Trace(due, Medium)) == 0 && Started(Trace(due, Slow)) == 0
            && Third(Ended(Trace(done, Medium)) + Ended(Trace(due, Medium))) == Third(Ended(Trace(done, Medium)))
  {
    hide Count, Trace, Ledger, AllFollow, EachOnce, M.Resolved;
    CountConcat(done, due, Resolves);
    TracesJoin(done, due, Medium);
    TracesJoin(done, due, Slow);
    OnceIffNoStartDue(done, due, Medium, ticks);
    OnceIffNoStartDue(done, due, Slow, ticks);
  }

  /**
   The first crash. A process that has lost nothing dies with events still queued, and its successor replays
   the log: the ledgers are in step exactly when no resolution, no started iteration and no started revision was
   queued, and the completed iterations queued did not complete a third heuristic.
   */
  lemma CrashKeepsLearningInStepIff(v: Setting, moves: seq<Move>)
    requires Legal(v, moves) && Loses(v, moves, NoLoss) && !Here(v, moves).replaying
    ensures var p, s := Here(v, moves), Here(v, Crash(v, moves)).o.memory;
            InStep(s) <==>
            Count(p.queue, Resolves) == 0 && Started(Trace(p.queue, Medium)) == 0 && Started(Trace(p.queue, Slow)) == 0
            && Third(|p.o.memory.learning.heuristics| + Ended(Trace(p.queue, Medium))) == Third(|p.o.memory.learning.heuristics|)
  {
    hide Here, Legal, Loses, Count, Trace, Ledger, Crash, InStep, Cascades, O.InOrder, M.Resolved;
    var p := Here(v, moves);
    RunsCascade(v, moves);
    LossesCompare(v, moves);
    CrashIs(v, moves);
    RunsRecount(v, Crash(v, moves));
    CutShort(p.past, p.queue, p.ticks, Here(v, Crash(v, moves)).o.memory);
  }

  /** The counts of a log whose process was stopped with some of it still due. */
  lemma BroughtToAHalt(done: seq<Payload>, due: seq<Payload>, ticks: nat, s: M.MState)
    requires Cascades(done, due, ticks) && Recounted(s, done)
    ensures InStep(s) <==> forall loop :: Trace(due, loop) == []
  {
    hide Count, Trace, Ledger, EachOnce, M.Resolved, History;
    TracesJoin(done, due, Medium);
    TracesJoin(done, due, Slow);
    NothingTraced(Trace(due, Medium));
    NothingTraced(Trace(due, Slow));
    BothLoops(due);
    if Trace(due, Medium) == [] { WholeOnce(Trace(done, Medium), ticks); }
    if Trace(due, Slow) == [] { WholeOnce(Trace(done, Slow), ticks); }
  }

  lemma BothLoops(ps: seq<Payload>)
    ensures (forall loop :: Trace(ps, loop) == []) <==> Trace(ps, Medium) == [] && Trace(ps, Slow) == []
  {
    hide Trace;
    if Trace(ps, Medium) == [] && Trace(ps, Slow) == [] {
      forall loop ensures Trace(ps, loop) == [] {
        match loop { case Medium => case Slow => }
      }
    }
  }

  lemma {:induction false} NothingTraced(notes: seq<Note>)
    ensures notes == [] <==> Started(notes) == 0 && Ended(notes) == 0
  {
    hide Count;
    if notes == [] {
      CountNone(notes, IsStart);
      CountNone(notes, IsEnd);
    } else {
      assert notes == [notes[0]] + notes[1..];
      CountConcat([notes[0]], notes[1..], IsStart);
      CountConcat([notes[0]], notes[1..], IsEnd);
      CountOne(notes[0], IsStart);
      CountOne(notes[0], IsEnd);
    }
  }

  /**
   The first stop. A process that has lost nothing is shut down with events still queued: its ledgers are in step
   exactly when none of them belonged to the learning loops.
   */
  lemma HaltKeepsLearningInStepIff(v: Setting, moves: seq<Move>)
    requires Legal(v, moves) && Loses(v, moves, NoLoss) && !Here(v, moves).replaying
    requires forall p <- Here(v, moves).queue :: !Lifecycle(p)
    ensures InStep(Here(v, Halt(v, moves)).o.memory) <==> forall loop :: Trace(Here(v, moves).queue, loop) == []
  {
    hide Here, Legal, Loses, Trace, Halt, InStep, Cascades, Recounted, O.InOrder;
    var p := Here(v, moves);
    RunsCascade(v, moves);
    HaltIs(v, moves);
    BroughtToAHalt(p.past, p.queue, p.ticks, p.o.memory);
  }

  // ---------------------------------------------------------------- after any number of losses

  /** The ids a ledger says were started, or completed. */
  function Ids(notes: seq<Note>, completed: bool): set<Id> {
    set m | m in notes && m.completed == completed :: m.id
  }

  function Among(completed: bool): Note -> bool {
    (m: Note) => m.completed == completed
  }

  predicate Once(history: seq<bool>) {
    history == [] || history == [false] || history == [false, true]
  }

  ghost predicate AtMostOnce(notes: seq<Note>) {
    forall id :: Once(History(notes, id))
  }

  lemma OnceSoFar(before: seq<bool>, last: bool)
    requires Once(before + [last])
    ensures Once(before) && last !in before
  {
    var all := before + [last];
    assert before == all[..|before|] && all[|before|] == last;
  }

  lemma FrontIsAtMostOnce(front: seq<Note>, m: Note)
    requires AtMostOnce(front + [m])
    ensures AtMostOnce(front) && m.id !in Ids(front, m.completed)
  {
    hide Project;
    forall id ensures Once(History(front, id)) {
      assert Once(History(front + [m], id));
      ProjectSnoc(front, m, OfId(id));
      if m.id == id { OnceSoFar(History(front, id), m.completed); }
    }
    ProjectSnoc(front, m, OfId(m.id));
    assert Once(History(front + [m], m.id));
    OnceSoFar(History(front, m.id), m.completed);
    if m.id in Ids(front, m.completed) {
      var k :| 0 <= k < |front| && front[k].id == m.id && front[k].completed == m.completed;
      ProjectMember(front, OfId(m.id), k);
      assert false;
    }
  }

  lemma IdsSnoc(front: seq<Note>, m: Note, completed: bool)
    ensures Ids(front + [m], completed) == Ids(front, completed) + if m.completed == completed then {m.id} else {}
  {
    assert forall n :: n in front + [m] <==> n in front || n == m;
  }

  lemma NoIds(completed: bool)
    ensures Ids([], completed) == {}
  {
  }

  /** Where nothing happens twice, there are as many ids as transitions. */
  lemma {:induction false} IdsCount(notes: seq<Note>, completed: bool)
    requires AtMostOnce(notes)
    ensures |Ids(notes, completed)| == Count(notes, Among(completed))
  {
    hide Count, AtMostOnce, Ids;
    if notes == [] {
      assert Ids(notes, completed) == {} by { NoIds(completed); }
      CountNone(notes, Among(completed));
    } else {
      var front, m := notes[..|notes| - 1], notes[|notes| - 1];
      assert notes == front + [m];
      FrontIsAtMostOnce(front, m);
      IdsCount(front, completed);
      CountSnoc(front, m, Among(completed));
      IdsSnoc(front, m, completed);
    }
  }

  lemma {:induction false} SameCount(notes: seq<Note>)
    ensures Started(notes) == Count(notes, Among(false)) && Ended(notes) == Count(notes, Among(true))
  {
    if notes != [] { SameCount(notes[1..]); }
  }

  /** Where nothing happens twice, everything was completed exactly when there are as many completions as starts. */
  lemma OnceIffAsManyEnded(notes: seq<Note>)
    requires AtMostOnce(notes)
    ensures EachOnce(notes) <==> Started(notes) == Ended(notes)
  {
    hide Count;
    SameCount(notes);
    IdsCount(notes, false);
    IdsCount(notes, true);
    var starts, ends := Ids(notes, false), Ids(notes, true);
    forall m | m in notes ensures m.id in starts && (History(notes, m.id) == [false, true] <==> m.id in ends) {
      SomethingSaid(notes, m);
      IdsSay(notes, m.id);
    }
    assert ends <= starts;
    if EachOnce(notes) { assert starts == ends; }
    if Started(notes) == Ended(notes) { SubsetOfSameSize(ends, starts); }
  }

  lemma SubsetOfSameSize(a: set<Id>, b: set<Id>)
    requires a <= b && |a| == |b|
    ensures a == b
  {
    assert b == a + (b - a);
  }

  lemma IdsSay(notes: seq<Note>, id: Id)
    requires AtMostOnce(notes) && History(notes, id) != []
    ensures id in Ids(notes, false) && (History(notes, id) == [false, true] <==> id in Ids(notes, true))
  {
    hide Project;
    var h := History(notes, id);
    assert Once(h);
    assert h[0] == false && false in h;
    var k := ProjectOrigin(notes, OfId(id), false);
    if h == [false, true] {
      assert h[1] == true && true in h;
      var l := ProjectOrigin(notes, OfId(id), true);
    }
    if id in Ids(notes, true) {
      var l :| 0 <= l < |notes| && notes[l].id == id && notes[l].completed;
      ProjectMember(notes, OfId(id), l);
      assert true in h;
    }
  }

  lemma FollowedIsAtMostOnce(notes: seq<Note>, ticks: nat)
    requires AllFollow(notes, [], ticks, false)
    ensures AtMostOnce(notes)
  {
    hide Project;
    forall id ensures Once(History(notes, id)) {
      assert Follows(History(notes, id), History([], id), id, ticks, false);
    }
  }

  /** The log counts as many of each thing as the stage before it calls for. */
  ghost predicate CountsAgree(log: seq<Payload>) {
    && Count(log, Resolves) == Started(Trace(log, Medium)) == Ended(Trace(log, Medium))
    && Started(Trace(log, Slow)) == Ended(Trace(log, Slow)) == Third(Ended(Trace(log, Medium)))
  }

  lemma InStepIffCountsAgree(log: seq<Payload>, ticks: nat, s: M.MState)
    requires Recounted(s, log) && forall loop :: AllFollow(Trace(log, loop), [], ticks, false)
    ensures InStep(s) <==> CountsAgree(log)
  {
    hide Count, Trace, Ledger, AllFollow, EachOnce, M.Resolved;
    FollowedIsAtMostOnce(Trace(log, Medium), ticks);
    FollowedIsAtMostOnce(Trace(log, Slow), ticks);
    OnceIffAsManyEnded(Trace(log, Medium));
    OnceIffAsManyEnded(Trace(log, Slow));
  }

  /**
   As long as shutdown drops nothing, however often a process died, between dispatches or in the middle of one: whenever
   the queue has drained, the ledgers are in step exactly when the log holds as many started and completed iterations as
   resolutions, and a third as many started and completed revisions.
   */
  lemma LearningIsInStepIff(v: Setting, moves: seq<Move>)
    requires Legal(v, moves) && Loses(v, moves, NoDrops) && Here(v, moves).queue == []
    ensures InStep(Here(v, moves).o.memory) <==> CountsAgree(Log(Here(v, moves)))
  {
    hide Here, Legal, Loses, Trace, AllFollow, Recounted, O.InOrder, InStep, CountsAgree;
    var p := Here(v, moves);
    RunsStayTallied(v, moves);
    assert Log(p) == p.past == Done(p) && Due(p) == [];
    forall loop ensures AllFollow(Trace(Log(p), loop), [], p.ticks, false) {
      TraceNone(loop);
      assert AllFollow(Trace(Done(p), loop), Trace(Due(p), loop), p.ticks, false);
    }
    InStepIffCountsAgree(Log(p), p.ticks, p.o.memory);
  }
}
