/** Perception's handlers as functions: sensors and observations. */
module PerceptionModel {
  import opened Prelude
  import opened Events

  const RESEARCH_SENSOR_PREFIX := "research:"
  const RESEARCH_OBSERVATION_VALUE := "1.0"
  const RESEARCH_OBSERVATION_CONFIDENCE := 0.5

  datatype Observation = Observation(sensorId: string, valueText: string, confidence: real)

  datatype PState = PState(sensors: set<string>, observations: seq<Observation>, intents: seq<string>)

  function Initial(): PState {
    PState({}, [], [])
  }

  predicate InRange(confidence: real) {
    0.0 <= confidence <= 1.0
  }

  /** `record_observation`; `None` is its ValueError. */
  function RecordObservation(s: PState, sensorId: string, valueText: string,
        confidence: real): Option<Reaction<PState>> {
    if sensorId !in s.sensors || !InRange(confidence) then None
    else Some(Reaction(s.(observations := s.observations + [Observation(sensorId, valueText, confidence)]),
                       [OfPerception(ObservationCreated(sensorId, valueText, confidence))]))
  }

  function ResearchSensor(requestId: string): string {
    RESEARCH_SENSOR_PREFIX + requestId
  }

  /** A research intent registers its own sensor, once, and reports one observation from it. */
  function OnResearchIntent(s: PState, requestId: string): Reaction<PState> {
    var sensorId := ResearchSensor(requestId);
    var s' := s.(sensors := s.sensors + {sensorId}, intents := s.intents + [requestId]);
    match RecordObservation(s', sensorId, RESEARCH_OBSERVATION_VALUE, RESEARCH_OBSERVATION_CONFIDENCE)
    case Some(r) => r
    case None => Reaction(s', [])
  }

  function Step(s: PState, e: Event): Reaction<PState> {
    match e.body
    case OfExecutive(x) => if x.ResearchIntent? then OnResearchIntent(s, x.requestId) else Reaction(s, [])
    case _ => Reaction(s, [])
  }
}
