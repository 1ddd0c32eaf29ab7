/** The World Model object: beliefs and cached reliabilities updated in place, held to functions of WorldModelModel. */
module WorldModelObject {
  import opened Prelude
  import opened Events
  import opened WorldModelModel

  class WorldModel {
    var beliefs: map<string, Belief>
    var reliabilities: map<string, real>

    ghost function State(): WState
      reads this
    {
      WState(beliefs, reliabilities)
    }

    constructor ()
      ensures State() == Initial()
    {
      beliefs, reliabilities := map[], map[];
    }

    method OnReliabilityUpdated(m: MemoryEvent)
      requires m.SensorReliabilityUpdated?
      modifies this`reliabilities
      ensures State() == WorldModelModel.OnReliabilityUpdated(old(State()), m)
    {
      reliabilities := reliabilities[m.sensorId := m.reliability];
    }

    method OnObservationCreated(p: PerceptionEvent, time: real) returns (published: seq<Payload>)
      modifies this`beliefs
      ensures Reaction(State(), published) == WorldModelModel.OnObservationCreated(old(State()), p, time)
    {
      hide BeliefId, Weighted;
      var id := BeliefId(p.sensorId);
      var weighted := Weighted(p.confidence, Lookup(reliabilities, p.sensorId).GetOr(DEFAULT_SENSOR_RELIABILITY));
      if id in beliefs {
        var existing := beliefs[id];
        var confidence := Clamp((existing.confidence + weighted) / 2.0);
        beliefs := beliefs[id := Belief(id, p.valueText, confidence, p.sensorId, time, existing.decayRate)];
        published := [OfWorldModel(BeliefUpdated(id, existing.confidence, confidence, p.sensorId))];
      } else {
        beliefs := beliefs[id := Belief(id, p.valueText, weighted, p.sensorId, time, DEFAULT_DECAY_RATE)];
        published := [OfWorldModel(BeliefCreated(id, p.valueText, weighted, p.sensorId))];
      }
    }

    method DecayBelief(id: string, now: real) returns (published: seq<Payload>)
      modifies this`beliefs
      ensures Reaction(State(), published) == DecayOne(old(State()), id, now)
    {
      if id !in beliefs {
        return [];
      }
      var belief := beliefs[id];
      var decayed := Decayed(belief, now);
      if decayed == belief.confidence {
        return [];
      }
      beliefs := beliefs[id := belief.(confidence := decayed, updated := now)];
      published := [OfWorldModel(BeliefUpdated(id, belief.confidence, decayed, belief.provenance))];
    }

    /** The loop of `apply_decay` over the beliefs the store lists, in whatever order it lists them. */
    method ApplyDecay(ids: seq<string>, now: real) returns (published: seq<Payload>)
      modifies this`beliefs
      ensures Reaction(State(), published) == WorldModelModel.ApplyDecay(old(State()), ids, now)
    {
      hide DecayOne;
      ghost var whole := WorldModelModel.ApplyDecay(State(), ids, now);
      published := [];
      var i := 0;
      assert ids[0..] == ids;
      while i < |ids|
        invariant 0 <= i <= |ids|
        invariant var rest := WorldModelModel.ApplyDecay(State(), ids[i..], now);
                  rest.state == whole.state && published + rest.published == whole.published
      {
        assert ids[i..][0] == ids[i] && ids[i..][1..] == ids[i + 1..];
        ghost var before := State();
        var more := DecayBelief(ids[i], now);
        Associates(published, more, WorldModelModel.ApplyDecay(State(), ids[i + 1..], now).published);
        published := published + more;
        i := i + 1;
      }
      assert ids[i..] == [];
    }
  }

  /** Decay never raises a confidence, never leaves the unit interval, and touches nothing but the beliefs it lists. */
  lemma {:induction false} DecayOnlyLowers(s: WState, ids: seq<string>, now: real)
    requires forall id :: id in s.beliefs ==> 0.0 <= s.beliefs[id].confidence <= 1.0
    ensures var s' := WorldModelModel.ApplyDecay(s, ids, now).state;
            && s'.beliefs.Keys == s.beliefs.Keys && s'.reliabilities == s.reliabilities
            && (forall id :: id in s.beliefs ==> 0.0 <= s'.beliefs[id].confidence <= s.beliefs[id].confidence)
            && (forall id :: id in s.beliefs && id !in ids ==> s'.beliefs[id] == s.beliefs[id])
    decreases |ids|
  {
    if ids != [] {
      var one := DecayOne(s, ids[0], now).state;
      DecayOneLowers(s, ids[0], now);
      DecayOnlyLowers(one, ids[1..], now);
    }
  }

  lemma DecayOneLowers(s: WState, id: string, now: real)
    requires forall b :: b in s.beliefs ==> 0.0 <= s.beliefs[b].confidence <= 1.0
    ensures var s' := DecayOne(s, id, now).state;
            && s'.beliefs.Keys == s.beliefs.Keys && s'.reliabilities == s.reliabilities
            && (forall b :: b in s.beliefs ==> 0.0 <= s'.beliefs[b].confidence <= s.beliefs[b].confidence)
            && (forall b :: b in s.beliefs && b != id ==> s'.beliefs[b] == s.beliefs[b])
  {
    hide Decayed;
    if id in s.beliefs { DecayedLower(s.beliefs[id], now); }
  }

  lemma DecayedLower(b: Belief, now: real)
    requires 0.0 <= b.confidence <= 1.0
    ensures 0.0 <= Decayed(b, now) <= b.confidence
  {
    if b.decayRate > 0.0 && now - b.updated > 0.0 {
      Loss(b.decayRate, now - b.updated);
      var lost := b.decayRate * (now - b.updated);
      assert Decayed(b, now) == Clamp(b.confidence - lost);
    }
  }

  lemma Loss(rate: real, elapsed: real)
    requires rate > 0.0 && elapsed > 0.0
    ensures rate * elapsed > 0.0
  {
  }
}
