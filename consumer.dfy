/** The incident command consumer: it filters inbound command messages, hands accepted
    ones to the incident service, acknowledges every delivery, and maps every updated
    incident it queued to an outgoing "IncidentUpdatedEvent" record. */
module Consumer {
  import opened Wrappers
  import opened Json
  import opened Incidents

  /** The one command type the consumer handles. */
  const UpdateIncidentCommand: string := "UpdateIncidentCommand"

  /** The allow-list of command types; a message is looked up in it by membership. */
  const AcceptedMessageTypes: seq<string> := [UpdateIncidentCommand]

  /** The event type and sender written on every outgoing envelope. */
  const IncidentUpdatedEvent: string := "IncidentUpdatedEvent"
  const IncidentServiceName: string := "IncidentService"

  /** `new JsonObject(text)`: the parsed document, or None where parsing throws. */
  type Parser = string -> Option<Json>

  /** `IncidentCodec.fromJsonObject`: the decoded incident, or None where decoding throws. */
  type Decoder = map<string, Json> -> Option<Incident>

  /** `IncidentService.updateIncident`: the updated incident, or None where the service throws. */
  type Updater = Incident -> Option<Incident>

  // ---------------------------------------------------------------------------
  // Envelope filter

  /** The acceptance condition, stated on the document's members: an object whose
      `messageType` is a string on the allow-list and whose `body` is an object that
      has an `incident` member (of any value). */
  predicate IsAcceptedCommand(doc: Json)
  {
    && doc.JObject?
    && "messageType" in doc.fields
    && doc.fields["messageType"].JString?
    && doc.fields["messageType"].str in AcceptedMessageTypes
    && "body" in doc.fields
    && doc.fields["body"].JObject?
    && "incident" in doc.fields["body"].fields
  }

  /** `acceptMessageType`: Some(document) when the payload parses to an accepted command,
      None otherwise. Every failure, a parse failure included, ends in None. */
  function AcceptMessageType(parse: Parser, messageAsJson: string): (r: Option<Json>)
    ensures r.Some? ==> r == parse(messageAsJson)
    ensures r.Some? <==> parse(messageAsJson).Some? && IsAcceptedCommand(parse(messageAsJson).value)
    ensures parse(messageAsJson).None? ==> r.None?
  {
    match parse(messageAsJson)
    case None => None
    case Some(json) =>
      match json
      case JObject(fields) =>
        var messageType := GetString(fields, "messageType");
        if messageType.Some? && messageType.value in AcceptedMessageTypes then
          if "body" in fields && GetObject(fields, "body").Some?
             && "incident" in GetObject(fields, "body").value
          then Some(json)
          else None
        else None
      case _ => None
  }

  // ---------------------------------------------------------------------------
  // Update dispatch

  /** `json.getJsonObject("body").getJsonObject("incident")`: the incident document, or None
      where either lookup yields null or throws because the member is not an object. */
  function IncidentDocument(json: Json): Option<map<string, Json>>
  {
    match json
    case JObject(fields) =>
      (match GetObject(fields, "body")
       case Some(body) => GetObject(body, "incident")
       case None => None)
    case _ => None
  }

  /** `processUpdateIncidentCommand` without its side effect: the incident it puts on the
      queue, or None when decoding or the update throws (nothing is queued then). */
  function Dispatch(decode: Decoder, updateIncident: Updater, json: Json): (r: Option<Incident>)
    ensures r.Some? <==>
      && IncidentDocument(json).Some?
      && decode(IncidentDocument(json).value).Some?
      && updateIncident(decode(IncidentDocument(json).value).value).Some?
    ensures r.Some? ==> r == updateIncident(decode(IncidentDocument(json).value).value)
  {
    var document := IncidentDocument(json);
    if document.None? then None
    else
      var incident := decode(document.value);
      if incident.None? then None
      else updateIncident(incident.value)
  }

  /** What one delivered message adds to the queue: the update result of an accepted
      command, nothing for a rejected message or a failed decode or update. */
  function Handle(parse: Parser, decode: Decoder, updateIncident: Updater, message: string): (r: Option<Incident>)
    ensures r.Some? ==> parse(message).Some? && IsAcceptedCommand(parse(message).value)
    ensures parse(message).Some? && IsAcceptedCommand(parse(message).value) ==>
      r == Dispatch(decode, updateIncident, parse(message).value)
  {
    match AcceptMessageType(parse, message)
    case None => None
    case Some(json) => Dispatch(decode, updateIncident, json)
  }

  /** The queue after the messages `delivered` were processed in order, from an empty queue. */
  function Enqueued(parse: Parser, decode: Decoder, updateIncident: Updater, delivered: seq<string>): (q: seq<Incident>)
    ensures |q| <= |delivered|
  {
    if delivered == [] then []
    else
      Enqueued(parse, decode, updateIncident, delivered[..|delivered| - 1])
      + AsSeq(Handle(parse, decode, updateIncident, delivered[|delivered| - 1]))
  }

  /** Processing one more message appends its outcome, and nothing else, to the queue. */
  lemma EnqueuedStep(parse: Parser, decode: Decoder, updateIncident: Updater, delivered: seq<string>, message: string)
    ensures Enqueued(parse, decode, updateIncident, delivered + [message])
         == Enqueued(parse, decode, updateIncident, delivered) + AsSeq(Handle(parse, decode, updateIncident, message))
  {
  }

  /** Every queued incident is the update result of some delivered, accepted message. */
  lemma {:induction false} EnqueuedOnlyFromAccepted(parse: Parser, decode: Decoder, updateIncident: Updater, delivered: seq<string>, k: nat)
    requires k < |Enqueued(parse, decode, updateIncident, delivered)|
    ensures exists j :: (0 <= j < |delivered|
      && Handle(parse, decode, updateIncident, delivered[j]) == Some(Enqueued(parse, decode, updateIncident, delivered)[k])
      && AcceptMessageType(parse, delivered[j]).Some?)
  {
    var n := |delivered|;
    var front := delivered[..n - 1];
    var q := Enqueued(parse, decode, updateIncident, front);
    var last := Handle(parse, decode, updateIncident, delivered[n - 1]);
    assert Enqueued(parse, decode, updateIncident, delivered) == q + AsSeq(last);
    if k < |q| {
      EnqueuedOnlyFromAccepted(parse, decode, updateIncident, front, k);
      var j :| 0 <= j < |front| && Handle(parse, decode, updateIncident, front[j]) == Some(q[k])
        && AcceptMessageType(parse, front[j]).Some?;
      assert delivered[j] == front[j];
    } else {
      assert last == Some(Enqueued(parse, decode, updateIncident, delivered)[k]);
    }
  }

  /** When every delivered message is rejected or fails, nothing is queued. */
  lemma {:induction false} EnqueuedEmptyWhenAllFail(parse: Parser, decode: Decoder, updateIncident: Updater, delivered: seq<string>)
    requires forall j :: 0 <= j < |delivered| ==> Handle(parse, decode, updateIncident, delivered[j]).None?
    ensures Enqueued(parse, decode, updateIncident, delivered) == []
  {
    if delivered != [] {
      var front := delivered[..|delivered| - 1];
      assert forall j :: 0 <= j < |front| ==> front[j] == delivered[j];
      EnqueuedEmptyWhenAllFail(parse, decode, updateIncident, front);
    }
  }

  /** When every delivered message dispatches, the queue holds one update per message, in order. */
  lemma {:induction false} EnqueuedAllWhenAllSucceed(parse: Parser, decode: Decoder, updateIncident: Updater, delivered: seq<string>)
    requires forall j :: 0 <= j < |delivered| ==> Handle(parse, decode, updateIncident, delivered[j]).Some?
    ensures |Enqueued(parse, decode, updateIncident, delivered)| == |delivered|
    ensures forall j :: 0 <= j < |delivered| ==>
      Some(Enqueued(parse, decode, updateIncident, delivered)[j]) == Handle(parse, decode, updateIncident, delivered[j])
  {
    if delivered != [] {
      var front := delivered[..|delivered| - 1];
      assert forall j :: 0 <= j < |front| ==> front[j] == delivered[j];
      EnqueuedAllWhenAllSucceed(parse, decode, updateIncident, front);
    }
  }

  // ---------------------------------------------------------------------------
  // Event mapping

  /** Reads the incident back out of an outgoing record: the inverse of the remap. */
  function IncidentOf(record: OutgoingRecord): Incident
  {
    var e := record.payload.body;
    Incident(e.incidentId, e.lat, e.lon, e.medicalNeeded, e.numberOfPeople, e.timestamp,
             e.victimName, e.victimPhoneNumber, e.status)
  }

  /** `toMessage`: the "IncidentUpdatedEvent" record for an updated incident. */
  function ToMessage(incident: Incident): (r: OutgoingRecord)
    ensures r.payload.messageType == IncidentUpdatedEvent
    ensures r.payload.sender == IncidentServiceName
    ensures r.key == incident.id && r.payload.body.incidentId == incident.id
    ensures IncidentOf(r) == incident
  {
    var event := IncidentEvent(incident.id, incident.lat, incident.lon, incident.medicalNeeded,
                               incident.numberOfPeople, incident.timestamp, incident.victimName,
                               incident.victimPhoneNumber, incident.status);
    OutgoingRecord(incident.id, Message(IncidentUpdatedEvent, IncidentServiceName, event))
  }

  /** `source`: the outgoing records for the queued incidents, one each, in queue order. */
  function Source(queue: seq<Incident>): (out: seq<OutgoingRecord>)
    ensures |out| == |queue|
    ensures forall k :: 0 <= k < |queue| ==> out[k] == ToMessage(queue[k])
  {
    if queue == [] then [] else [ToMessage(queue[0])] + Source(queue[1..])
  }

  /** Publishing is compositional: what a longer queue emits extends what its prefix emits. */
  lemma SourceAppend(front: seq<Incident>, back: seq<Incident>)
    ensures Source(front + back) == Source(front) + Source(back)
  {
  }

  /** The incidents carried by a sequence of outgoing records. */
  function IncidentsOf(records: seq<OutgoingRecord>): seq<Incident>
  {
    seq(|records|, k requires 0 <= k < |records| => IncidentOf(records[k]))
  }

  /** The remap loses nothing: the emitted records give back the queue exactly. */
  lemma SourceRecoversQueue(queue: seq<Incident>)
    ensures IncidentsOf(Source(queue)) == queue
  {
  }

  /** Every published record is the event of the update of some delivered, accepted message. */
  lemma PublishedOnlyFromAccepted(parse: Parser, decode: Decoder, updateIncident: Updater, delivered: seq<string>, k: nat)
    requires k < |Source(Enqueued(parse, decode, updateIncident, delivered))|
    ensures exists j, updated :: (0 <= j < |delivered|
      && AcceptMessageType(parse, delivered[j]).Some?
      && Handle(parse, decode, updateIncident, delivered[j]) == Some(updated)
      && Source(Enqueued(parse, decode, updateIncident, delivered))[k] == ToMessage(updated))
  {
  }

  // ---------------------------------------------------------------------------
  // Concrete deliveries

  /** The incident document of the sample command. */
  function SampleIncidentFields(): map<string, Json>
  {
    map["id" := JString("i1"), "lat" := JString("1.0"), "lon" := JString("2.0"),
        "medicalNeeded" := JBool(true), "numberOfPeople" := JNumber("3"), "timestamp" := JNumber("1000"),
        "victimName" := JString("A"), "victimPhoneNumber" := JString("555"),
        "status" := JString("ASSIGNED")]
  }

  /** The sample incident the codec decodes from `SampleIncidentFields`. */
  function SampleIncident(): Incident
  {
    Incident("i1", "1.0", "2.0", true, 3, 1000, "A", "555", "ASSIGNED")
  }

  /** An "UpdateIncidentCommand" for the sample incident, with a service that returns the
      incident unchanged, yields one record keyed "i1" that carries the incident's fields. */
  lemma SampleCommandPublishesOneEvent(parse: Parser, decode: Decoder, updateIncident: Updater, text: string)
    requires parse(text) == Some(JObject(map["messageType" := JString("UpdateIncidentCommand"),
                                             "body" := JObject(map["incident" := JObject(SampleIncidentFields())])]))
    requires decode(SampleIncidentFields()) == Some(SampleIncident())
    requires updateIncident(SampleIncident()) == Some(SampleIncident())
    ensures Source(AsSeq(Handle(parse, decode, updateIncident, text)))
         == [OutgoingRecord("i1", Message("IncidentUpdatedEvent", "IncidentService",
               IncidentEvent("i1", "1.0", "2.0", true, 3, 1000, "A", "555", "ASSIGNED")))]
  {
  }

  /** A command of another type is dropped, whatever its body holds. */
  lemma OtherCommandIsIgnored(parse: Parser, decode: Decoder, updateIncident: Updater, text: string, body: Json)
    requires parse(text) == Some(JObject(map["messageType" := JString("SomeOtherCommand"), "body" := body]))
    ensures AcceptMessageType(parse, text) == None
    ensures Handle(parse, decode, updateIncident, text) == None
  {
  }

  /** An "UpdateIncidentCommand" without a body is dropped. */
  lemma CommandWithoutBodyIsIgnored(parse: Parser, decode: Decoder, updateIncident: Updater, text: string)
    requires parse(text) == Some(JObject(map["messageType" := JString("UpdateIncidentCommand")]))
    ensures AcceptMessageType(parse, text) == None
    ensures Handle(parse, decode, updateIncident, text) == None
  {
  }

  /** When the service throws, an accepted command queues nothing. */
  lemma FailedUpdateQueuesNothing(parse: Parser, decode: Decoder, updateIncident: Updater, text: string)
    requires parse(text).Some? && IsAcceptedCommand(parse(text).value)
    requires forall incident :: updateIncident(incident) == None
    ensures AcceptMessageType(parse, text).Some?
    ensures Handle(parse, decode, updateIncident, text) == None
  {
  }

  // ---------------------------------------------------------------------------
  // The consumer object

  /** `IncidentCommandMessageSource`: the collaborators it calls, the `processor` queue of
      updated incidents (everything ever put on it) and the log of acknowledged deliveries. */
  class IncidentCommandMessageSource {
    const parse: Parser
    const decode: Decoder
    const updateIncident: Updater

    var processor: seq<Incident>
    var acknowledged: seq<string>

    /** The queue holds exactly the outcomes of the acknowledged deliveries, in order. */
    ghost predicate Valid()
      reads this
    {
      processor == Enqueued(parse, decode, updateIncident, acknowledged)
    }

    constructor (parse: Parser, decode: Decoder, updateIncident: Updater)
      ensures Valid()
      ensures this.parse == parse && this.decode == decode && this.updateIncident == updateIncident
      ensures processor == [] && acknowledged == []
    {
      this.parse := parse;
      this.decode := decode;
      this.updateIncident := updateIncident;
      processor := [];
      acknowledged := [];
    }

    /** `processMessage`: filter, dispatch when accepted, then acknowledge the delivery once,
        whatever the filter or the dispatch did. */
    method ProcessMessage(message: string) returns (acked: string)
      requires Valid()
      modifies this
      ensures Valid()
      ensures acked == message
      ensures acknowledged == old(acknowledged) + [message]
      ensures processor == old(processor) + AsSeq(Handle(parse, decode, updateIncident, message))
      ensures Source(processor) == Source(old(processor)) + Source(AsSeq(Handle(parse, decode, updateIncident, message)))
    {
      var accepted := AcceptMessageType(parse, message);
      if accepted.Some? {
        ProcessUpdateIncidentCommand(accepted.value);
      }
      EnqueuedStep(parse, decode, updateIncident, acknowledged, message);
      SourceAppend(old(processor), AsSeq(Handle(parse, decode, updateIncident, message)));
      acknowledged := acknowledged + [message];
      acked := message;
    }

    /** `processUpdateIncidentCommand`: decode the incident, update it through the service and
        put the result on the queue; a decode or update failure leaves the queue as it was. */
    method ProcessUpdateIncidentCommand(json: Json)
      modifies this`processor
      ensures processor == old(processor) + AsSeq(Dispatch(decode, updateIncident, json))
    {
      processor := processor + AsSeq(Dispatch(decode, updateIncident, json));
    }
  }
}
