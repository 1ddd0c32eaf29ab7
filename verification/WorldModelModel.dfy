/** The World Model's handlers as functions: beliefs and decay. */
module WorldModelModel {
  import opened Prelude
  import opened Events

  const DEFAULT_DECAY_RATE := 0.01
  const DEFAULT_SENSOR_RELIABILITY := 1.0

  datatype Belief = Belief(id: string, claim: string, confidence: real, provenance: string, updated: real,
      decayRate: real)

  datatype WState = WState(beliefs: map<string, Belief>, reliabilities: map<string, real>)

  function Initial(): WState {
    WState(map[], map[])
  }

  /** `_clamp_confidence` */
  function Clamp(value: real): (r: real)
    ensures 0.0 <= r <= 1.0
    ensures 0.0 <= value <= 1.0 ==> r == value
  {
    if value < 0.0 then 0.0 else if value > 1.0 then 1.0 else value
  }

  function BeliefId(sensorId: string): string {
    "sensor:" + sensorId
  }

  function ReliabilityOf(s: WState, sensorId: string): real {
    Lookup(s.reliabilities, sensorId).GetOr(DEFAULT_SENSOR_RELIABILITY)
  }

  /** Evidence counts for as much as its sensor is trusted. */
  function Weighted(confidence: real, reliability: real): real {
    confidence * reliability
  }

  /** A belief already held moves halfway towards the weighted evidence; a new one starts at it. */
  function OnObservationCreated(s: WState, p: PerceptionEvent, time: real): Reaction<WState> {
    var id := BeliefId(p.sensorId);
    var weighted := Weighted(p.confidence, ReliabilityOf(s, p.sensorId));
    if id in s.beliefs then
      var existing := s.beliefs[id];
      var confidence := Clamp((existing.confidence + weighted) / 2.0);
      Reaction(s.(beliefs := s.beliefs[id := Belief(id, p.valueText, confidence, p.sensorId, time, existing.decayRate)]),
               [OfWorldModel(BeliefUpdated(id, existing.confidence, confidence, p.sensorId))])
    else
      Reaction(s.(beliefs := s.beliefs[id := Belief(id, p.valueText, weighted, p.sensorId, time, DEFAULT_DECAY_RATE)]),
               [OfWorldModel(BeliefCreated(id, p.valueText, weighted, p.sensorId))])
  }

  function OnReliabilityUpdated(s: WState, m: MemoryEvent): WState
    requires m.SensorReliabilityUpdated?
  {
    s.(reliabilities := s.reliabilities[m.sensorId := m.reliability])
  }

  function Step(s: WState, e: Event): Reaction<WState> {
    match e.body
    case OfPerception(p) => OnObservationCreated(s, p, e.time)
    case OfMemory(m) => Reaction(if m.SensorReliabilityUpdated? then OnReliabilityUpdated(s, m) else s, [])
    case _ => Reaction(s, [])
  }

  // ---------------------------------------------------------------- decay

  /** What a belief decays to by `now`. */
  function Decayed(b: Belief, now: real): real {
    if b.decayRate <= 0.0 || now - b.updated <= 0.0 then b.confidence
    else Clamp(b.confidence - b.decayRate * (now - b.updated))
  }

  function DecayOne(s: WState, id: string, now: real): Reaction<WState> {
    if id !in s.beliefs then Reaction(s, [])
    else
      var b := s.beliefs[id];
      if Decayed(b, now) == b.confidence then Reaction(s, [])
      else Reaction(s.(beliefs := s.beliefs[id := b.(confidence := Decayed(b, now), updated := now)]),
                    [OfWorldModel(BeliefUpdated(id, b.confidence, Decayed(b, now), b.provenance))])
  }

  /** `apply_decay`, over the beliefs in the order the store lists them. */
  function ApplyDecay(s: WState, ids: seq<string>, now: real): Reaction<WState>
    decreases |ids|
  {
    if ids == [] then Reaction(s, [])
    else
      var one := DecayOne(s, ids[0], now);
      var rest := ApplyDecay(one.state, ids[1..], now);
      Reaction(rest.state, one.published + rest.published)
  }
}
