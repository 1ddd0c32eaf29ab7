/** The Perception object: the sensor registry and observation log updated in place, held to PerceptionModel. */
module PerceptionObject {
  import opened Prelude
  import opened Events
  import opened PerceptionModel

  class Perception {
    var sensors: set<string>
    var observations: seq<Observation>
    var intents: seq<string>

    ghost function State(): PState
      reads this
    {
      PState(sensors, observations, intents)
    }

    constructor ()
      ensures State() == Initial()
    {
      sensors, observations, intents := {}, [], [];
    }

    /** Refuses (ValueError) a sensor that is registered already. */
    method RegisterSensor(sensorId: string) returns (refused: bool)
      modifies this`sensors
      ensures refused == (sensorId in old(sensors)) && sensors == old(sensors) + {sensorId}
    {
      refused := sensorId in sensors;
      sensors := sensors + {sensorId};
    }

    method RecordObservation(sensorId: string, valueText: string,
          confidence: real) returns (published: Option<seq<Payload>>)
      modifies this`observations
      ensures match PerceptionModel.RecordObservation(old(State()), sensorId, valueText, confidence)
              case None => published == None && State() == old(State())
              case Some(r) => published == Some(r.published) && State() == r.state
    {
      if sensorId !in sensors || !InRange(confidence) {
        return None;
      }
      observations := observations + [Observation(sensorId, valueText, confidence)];
      published := Some([OfPerception(ObservationCreated(sensorId, valueText, confidence))]);
    }

    method OnResearchIntent(requestId: string) returns (published: seq<Payload>)
      modifies this`sensors, this`observations, this`intents
      ensures Reaction(State(), published) == PerceptionModel.OnResearchIntent(old(State()), requestId)
    {
      hide ResearchSensor;
      intents := intents + [requestId];
      var sensorId := ResearchSensor(requestId);
      if sensorId !in sensors {
        var _ := RegisterSensor(sensorId);
      }
      assert sensors == old(sensors) + {sensorId};
      var recorded := RecordObservation(sensorId, RESEARCH_OBSERVATION_VALUE, RESEARCH_OBSERVATION_CONFIDENCE);
      published := recorded.GetOr([]);
    }
  }
}
