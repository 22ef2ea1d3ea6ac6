/** The records the consumer receives from the incident service and publishes. */
module Incidents {

  /** A coordinate as the incident carries it; turning it into a decimal is not modelled. */
  type Coordinate = string

  /** The domain entity, as returned by the incident service. */
  datatype Incident = Incident(
    id: string,
    lat: Coordinate,
    lon: Coordinate,
    medicalNeeded: bool,
    numberOfPeople: int,
    timestamp: int,
    victimName: string,
    victimPhoneNumber: string,
    status: string)

  /** The body of an outgoing "IncidentUpdatedEvent". */
  datatype IncidentEvent = IncidentEvent(
    incidentId: string,
    lat: Coordinate,
    lon: Coordinate,
    medicalNeeded: bool,
    numberOfPeople: int,
    timestamp: int,
    victimName: string,
    victimPhoneNumber: string,
    status: string)

  /** The outgoing envelope: event type, sending service and body. */
  datatype Message = Message(messageType: string, sender: string, body: IncidentEvent)

  /** An outgoing broker record: the routing key and the (unserialised) envelope. */
  datatype OutgoingRecord = OutgoingRecord(key: string, payload: Message)
}
