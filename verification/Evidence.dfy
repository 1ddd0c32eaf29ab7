/** Evidence counts for as much as Memory's latest score trusts its sensor; beliefs fade. */
module Evidence {
  import opened Prelude
  import opened Events
  import opened Rules
  import opened KernelModel
  import opened Organism
  import opened Runs
  import opened WorldModelModel
  import Ranges
  import Replicas
  import M = MemoryModel

  // ---------------------------------------------------------------- forming and revising

  function ConfidenceIn(s: WState, id: string): Option<real> {
    if id in s.beliefs then Some(s.beliefs[id].confidence) else None
  }

  /** A first report is believed as far as its sensor is trusted; a later one moves the belief halfway there. */
  function Believed(before: Option<real>, confidence: real, trust: real): real {
    match before
    case None => confidence * trust
    case Some(held) => (held + confidence * trust) / 2.0
  }

  /** The one event that tells of it. */
  predicate TellsOf(p: Payload, before: Option<real>, after: real, id: string, claim: string, sensor: string) {
    match before
    case None => p == OfWorldModel(BeliefCreated(id, claim, after, sensor))
    case Some(held) => p == OfWorldModel(BeliefUpdated(id, held, after, sensor))
  }

  /** The belief about a sensor is revised by its report, and no other belief is. */
  ghost predicate Revised(s: WState, r: Reaction<WState>, sensor: string, claim: string, confidence: real, trust: real, time: real) {
    var id, before := "sensor:" + sensor, ConfidenceIn(s, "sensor:" + sensor);
    var after := Believed(before, confidence, trust);
    && |r.published| == 1 && TellsOf(r.published[0], before, after, id, claim, sensor)
    && id in r.state.beliefs
    && var b := r.state.beliefs[id];
       && b.id == id && b.claim == claim && b.confidence == after && b.provenance == sensor && b.updated == time
       && b.decayRate == (if id in s.beliefs then s.beliefs[id].decayRate else 0.01)
       && r.state == s.(beliefs := s.beliefs[id := b])
  }

  lemma Halfway(a: real, b: real)
    requires 0.0 <= a <= 1.0 && 0.0 <= b <= 1.0
    ensures Clamp((a + b) / 2.0) == (a + b) / 2.0
  {
  }

  lemma ReportRevises(s: WState, sensor: string, claim: string, confidence: real, time: real, trust: real)
    requires Ranges.Sensing(s) && Ranges.Unit(confidence) && trust == ReliabilityOf(s, sensor)
    ensures Revised(s, WorldModelModel.OnObservationCreated(s, ObservationCreated(sensor, claim, confidence), time), sensor, claim, confidence, trust, time)
  {
    hide Clamp;
    var id := "sensor:" + sensor;
    Ranges.UnitProduct(confidence, trust);
    if id in s.beliefs { Halfway(s.beliefs[id].confidence, confidence * trust); }
    var r := WorldModelModel.OnObservationCreated(s, ObservationCreated(sensor, claim, confidence), time);
    var before, b := ConfidenceIn(s, id), r.state.beliefs[id];
    assert b.confidence == Believed(before, confidence, trust);
    assert TellsOf(r.published[0], before, b.confidence, id, claim, sensor);
    assert r.state == s.(beliefs := s.beliefs[id := b]);
  }

  ghost predicate RevisedHere(p: Point, e: Event, sensor: string, claim: string, confidence: real) {
    Revised(p.o.worldModel, WorldModelModel.Step(p.o.worldModel, e), sensor, claim, confidence,
            Replicas.LatestReliability(p.o.memory.reliabilities, sensor), e.time)
  }

  /**
   In every run: dispatching a sensor's observation creates the belief about it at the observation's confidence times the
   latest reliability Memory has recorded for the sensor, or moves the belief held to the mean of what it was and that product.
   */
  lemma EvidenceIsWeighed(v: Setting, moves: seq<Move>, e: Event, sensor: string, claim: string, confidence: real)
    requires Legal(v, moves) && Facing(Here(v, moves), e.body) && e.body == OfPerception(ObservationCreated(sensor, claim, confidence))
    ensures RevisedHere(Here(v, moves), e, sensor, claim, confidence)
  {
    hide Here, Legal, Revised, Ranges.Sensing, Ranges.Valuing, Ranges.Scoring, WorldModelModel.OnObservationCreated, ReliabilityOf, Replicas.LatestReliability;
    var p := Here(v, moves);
    Ranges.RunsKeepRanges(v, moves);
    Replicas.ViewsAgree(v, moves);
    LogTurns(p);
    assert Ranges.InRange(e.body);
    ReportRevises(p.o.worldModel, sensor, claim, confidence, e.time, Replicas.LatestReliability(p.o.memory.reliabilities, sensor));
  }

  // ---------------------------------------------------------------- fading

  /** A confidence fades in proportion to the time since the belief was touched, down to nothing. */
  function Faded(confidence: real, rate: real, elapsed: real): real {
    if rate <= 0.0 || elapsed <= 0.0 then confidence
    else if confidence <= rate * elapsed then 0.0
    else confidence - rate * elapsed
  }

  lemma Positive(a: real, b: real)
    requires a > 0.0 && b > 0.0
    ensures a * b > 0.0
  {
  }

  lemma FadingIs(b: Belief, now: real)
    requires 0.0 <= b.confidence <= 1.0
    ensures Decayed(b, now) == Faded(b.confidence, b.decayRate, now - b.updated)
    ensures 0.0 <= Decayed(b, now) <= b.confidence
  {
    var elapsed := now - b.updated;
    if b.decayRate > 0.0 && elapsed > 0.0 {
      Positive(b.decayRate, elapsed);
      assert Decayed(b, now) == Clamp(b.confidence - b.decayRate * elapsed);
    }
  }

  /** What becomes of a belief that is asked to fade: it is touched only if its confidence changes. */
  function Fade(b: Belief, now: real): Belief {
    var confidence := Faded(b.confidence, b.decayRate, now - b.updated);
    if confidence == b.confidence then b else b.(confidence := confidence, updated := now)
  }

  /** How the change is announced. */
  function FadeNotice(b: Belief, id: string, now: real): seq<Payload> {
    if Fade(b, now) == b then [] else [OfWorldModel(BeliefUpdated(id, b.confidence, Fade(b, now).confidence, b.provenance))]
  }

  ghost predicate Credible(s: WState) {
    forall id :: id in s.beliefs ==> 0.0 <= s.beliefs[id].confidence <= 1.0
  }

  predicate Once(ids: seq<string>) {
    forall i, j :: 0 <= i < j < |ids| ==> ids[i] != ids[j]
  }

  function FadeNotices(s: WState, ids: seq<string>, now: real): seq<Payload> {
    if ids == [] then []
    else (if ids[0] in s.beliefs then FadeNotice(s.beliefs[ids[0]], ids[0], now) else []) + FadeNotices(s, ids[1..], now)
  }

  lemma OneFades(s: WState, id: string, now: real)
    requires Credible(s)
    ensures var r := DecayOne(s, id, now);
            && r.published == (if id in s.beliefs then FadeNotice(s.beliefs[id], id, now) else [])
            && r.state == (if id in s.beliefs then s.(beliefs := s.beliefs[id := Fade(s.beliefs[id], now)]) else s)
            && Credible(r.state)
  {
    hide Decayed, Faded;
    if id in s.beliefs {
      FadingIs(s.beliefs[id], now);
      assert s.beliefs[id := s.beliefs[id]] == s.beliefs;
    }
  }

  lemma {:induction false} NoticesApart(s: WState, s': WState, ids: seq<string>, id: string, now: real)
    requires id !in ids && forall b :: b != id ==> Lookup(s.beliefs, b) == Lookup(s'.beliefs, b)
    ensures FadeNotices(s', ids, now) == FadeNotices(s, ids, now)
  {
    hide FadeNotice;
    if ids != [] {
      assert Lookup(s.beliefs, ids[0]) == Lookup(s'.beliefs, ids[0]);
      NoticesApart(s, s', ids[1..], id, now);
    }
  }

  /** Decay fades each belief listed, once, announces exactly those that changed, in the order listed, and leaves the rest alone. */
  lemma {:induction false} DecayFades(s: WState, ids: seq<string>, now: real)
    requires Credible(s) && Once(ids)
    ensures var r := WorldModelModel.ApplyDecay(s, ids, now);
            && r.published == FadeNotices(s, ids, now)
            && r.state.reliabilities == s.reliabilities
            && forall id :: Lookup(r.state.beliefs, id)
                         == if id in ids && id in s.beliefs then Some(Fade(s.beliefs[id], now)) else Lookup(s.beliefs, id)
    decreases |ids|
  {
    hide DecayOne, Faded, Fade, FadeNotice;
    if ids != [] {
      var one, rest := DecayOne(s, ids[0], now), ids[1..];
      OneFades(s, ids[0], now);
      assert ids == [ids[0]] + rest;
      OnceTail(ids);
      DecayFades(one.state, rest, now);
      NoticesApart(s, one.state, rest, ids[0], now);
    }
  }

  lemma OnceTail(ids: seq<string>)
    requires Once(ids) && ids != []
    ensures Once(ids[1..]) && ids[0] !in ids[1..]
  {
    forall i, j | 0 <= i < j < |ids[1..]| ensures ids[1..][i] != ids[1..][j] { assert ids[i + 1] != ids[j + 1]; }
    forall j | 0 <= j < |ids[1..]| ensures ids[1..][j] != ids[0] { assert ids[0] != ids[j + 1]; }
  }

  lemma Splits(rate: real, first: real, second: real)
    ensures rate * (first + second) == rate * first + rate * second
  {
  }

  /** Fading twice fades as far as fading once, however the time is divided. */
  lemma FadingComposes(b: Belief, between: real, now: real)
    requires 0.0 <= b.confidence <= 1.0 && b.updated <= between <= now
    ensures Fade(Fade(b, between), now).confidence == Fade(b, now).confidence
  {
    var first, second := between - b.updated, now - between;
    Splits(b.decayRate, first, second);
    if b.decayRate > 0.0 && first > 0.0 {
      Positive(b.decayRate, first);
      if second > 0.0 { Positive(b.decayRate, second); }
    }
  }
}
