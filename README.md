# Incident command consumer

A Dafny model of the incident service's command consumer
(`IncidentCommandMessageSource`). It reads "UpdateIncidentCommand" messages from the
incident command stream. It keeps only well-formed commands of an allowed type and hands the
embedded incident to the incident service for update. The updated incident goes onto an
in-process queue (`processor`), and every delivered message is acknowledged. The outgoing
side maps every queued incident to an "IncidentUpdatedEvent" record keyed by the incident id.

Files:

- `wrappers.dfy` (module `Wrappers`): `Option`, which stands for `Optional`, `null` and "threw".
- `json.dfy` (module `Json`): the parsed document: objects, arrays, strings, numbers (kept as
  their literal text), booleans and null, with the `getString` and `getJsonObject` lookups.
- `incidents.dfy` (module `Incidents`): the `Incident` entity, the `IncidentEvent` body, the
  `Message` envelope and the outgoing record (key plus envelope).
- `consumer.dfy` (module `Consumer`): the envelope filter, the update dispatch, the event
  mapping and the class `IncidentCommandMessageSource`.

The collaborators the Java class calls are supplied as functions. The class receives them in its
constructor, and the pure functions take them as parameters:

- `parse` is the `JsonObject` parser. It returns None where parsing throws.
- `decode` is `IncidentCodec.fromJsonObject`. It returns None where decoding throws.
- `updateIncident` is `IncidentService.updateIncident`. It returns None where the service throws.

Two fields carry the class's state:

- `processor` holds every incident ever put on the outbound processor, in order.
  `Source(processor)` is the stream of records published so far.
- `acknowledged` is the log of acknowledged deliveries.

The object invariant `Valid()` says that the queue is exactly `Enqueued` of the
acknowledgement log, so each queued item comes from a delivery that was acknowledged. That each
delivery is acknowledged exactly once comes from `ProcessMessage`'s postcondition
`acknowledged == old(acknowledged) + [message]`.

On the value of `messageType`: the Vert.x `getString` call either throws for a non-string
value or converts it with `toString`. Neither can yield "UpdateIncidentCommand". The model
therefore accepts only a string member on the allow-list. `getJsonObject("body")` throws for a
non-object value and gives null for a JSON null; both end in the catch at line 85. So the model
requires `body` to be an object.

## Model

| member | source | states |
|---|---|---|
| `Consumer.AcceptMessageType` | src/main/java/com/redhat/cajun/navy/incident/consumer/IncidentCommandMessageSource.java:75-90 | Returns a document only when the payload parses to an object whose `messageType` is a string in `AcceptedMessageTypes` (just "UpdateIncidentCommand") and whose `body` is an object with an `incident` member. That document is the parse result, unchanged. The converse holds too. A parse failure gives None. |
| `Consumer.Dispatch` | src/main/java/com/redhat/cajun/navy/incident/consumer/IncidentCommandMessageSource.java:62-73 | Yields an incident exactly when `body.incident` is an object, the codec decodes it and the service update succeeds. The incident it yields is the service's result for the decoded incident. |
| `Consumer.Handle` | src/main/java/com/redhat/cajun/navy/incident/consumer/IncidentCommandMessageSource.java:52-58 | A delivered message produces a queue item only when it is an accepted command. For an accepted command, the item is the dispatch outcome of the parsed document. |
| `Consumer.Enqueued` | src/main/java/com/redhat/cajun/navy/incident/consumer/IncidentCommandMessageSource.java:42-58 | After a sequence of deliveries, the queue is no longer than the delivery sequence. |
| `Consumer.EnqueuedStep` | src/main/java/com/redhat/cajun/navy/incident/consumer/IncidentCommandMessageSource.java:52-58 | One more delivery appends its own outcome to the queue and leaves the earlier items as they were. |
| `Consumer.EnqueuedOnlyFromAccepted` | src/main/java/com/redhat/cajun/navy/incident/consumer/IncidentCommandMessageSource.java:54-71 | Every queued incident is the update result of some delivered message that the filter accepted. |
| `Consumer.EnqueuedEmptyWhenAllFail` | src/main/java/com/redhat/cajun/navy/incident/consumer/IncidentCommandMessageSource.java:53-57 | If every delivery is rejected, or fails in decode or update, the queue stays empty. |
| `Consumer.EnqueuedAllWhenAllSucceed` | src/main/java/com/redhat/cajun/navy/incident/consumer/IncidentCommandMessageSource.java:54-71 | If every delivery dispatches, the queue holds exactly one update per delivery, in delivery order. |
| `Consumer.ToMessage` | src/main/java/com/redhat/cajun/navy/incident/consumer/IncidentCommandMessageSource.java:97-117 | The record has type "IncidentUpdatedEvent" and sender "IncidentService". Its key and `body.incidentId` are the incident's id. The remap is lossless: reading the incident back from the record gives the original incident. |
| `Consumer.Source` | src/main/java/com/redhat/cajun/navy/incident/consumer/IncidentCommandMessageSource.java:92-95 | Exactly one record per queued incident. The k-th record is `ToMessage` of the k-th queued incident. |
| `Consumer.SourceAppend` | src/main/java/com/redhat/cajun/navy/incident/consumer/IncidentCommandMessageSource.java:92-95 | What a longer queue publishes is what its prefix publishes, followed by the rest. |
| `Consumer.SourceRecoversQueue` | src/main/java/com/redhat/cajun/navy/incident/consumer/IncidentCommandMessageSource.java:98-108 | The published records determine the queue: the incidents read back from them are the queue itself. |
| `Consumer.PublishedOnlyFromAccepted` | src/main/java/com/redhat/cajun/navy/incident/consumer/IncidentCommandMessageSource.java:54-94 | Every published record is the event of the update of a delivered message that the filter accepted. |
| `Consumer.SampleCommandPublishesOneEvent` | src/main/java/com/redhat/cajun/navy/incident/consumer/IncidentCommandMessageSource.java:52-117 | Take a sample "UpdateIncidentCommand" for incident "i1" and a service that returns the incident unchanged. The result is one record keyed "i1" that carries the incident's fields. |
| `Consumer.OtherCommandIsIgnored` | src/main/java/com/redhat/cajun/navy/incident/consumer/IncidentCommandMessageSource.java:79-89 | A "SomeOtherCommand" message is rejected and queues nothing, whatever its body is. |
| `Consumer.CommandWithoutBodyIsIgnored` | src/main/java/com/redhat/cajun/navy/incident/consumer/IncidentCommandMessageSource.java:80-89 | An "UpdateIncidentCommand" without `body` is rejected and queues nothing. |
| `Consumer.FailedUpdateQueuesNothing` | src/main/java/com/redhat/cajun/navy/incident/consumer/IncidentCommandMessageSource.java:68-72 | When the service throws, the command is still accepted, but nothing is queued. |
| `Consumer.IncidentCommandMessageSource.constructor` | src/main/java/com/redhat/cajun/navy/incident/consumer/IncidentCommandMessageSource.java:42-48 | The consumer starts with an empty queue, no acknowledgements and the given collaborators. The invariant holds. |
| `Consumer.IncidentCommandMessageSource.ProcessMessage` | src/main/java/com/redhat/cajun/navy/incident/consumer/IncidentCommandMessageSource.java:52-59 | The delivered message is appended to the acknowledgement log exactly once, whatever the outcome, and the message is returned. The queue grows by the message's outcome only. The published stream grows by that outcome's event only. The invariant is kept. |
| `Consumer.IncidentCommandMessageSource.ProcessUpdateIncidentCommand` | src/main/java/com/redhat/cajun/navy/incident/consumer/IncidentCommandMessageSource.java:62-73 | The queue grows by exactly the updated incident when decode and update succeed. Otherwise the queue is unchanged. |

## Left out

- JSON text parsing, `IncidentCodec.fromJsonObject` and `IncidentService.updateIncident`: these are foreign code and are supplied as functions. An exception in any of them is modelled as None.
- A JSON `null` as the `incident` value is handed to the codec as `null` in the source. The model treats it like any non-object, as a decode failure.
- Vert.x `executeBlocking`, the worker-thread offload and the serialised `UnicastProcessor`: these are concurrency. In the model the dispatch is a direct, sequential call inside the step, and the queue is a sequence. In the source the acknowledgement at line 58 follows the submission at line 68, and `onNext` at line 71 may run before or after that acknowledgement, or after later deliveries; so `Valid()` (queue equals `Enqueued` of the acknowledgement log) and the delivery order of `EnqueuedAllWhenAllSucceed` hold only for this sequential model.
- Kafka records, the `ack()` future and offset commits: the acknowledgement is one entry in the `acknowledged` log.
- Jsonb serialisation of the envelope: an outgoing record carries the `Message` value, not its JSON text. `Message.java` is not part of this model, so any id or timestamp its builder may add is not modelled.
- `BigDecimal` conversion of `lat` and `lon`: coordinates pass through as opaque strings. The model does not capture a `NumberFormatException` for a malformed coordinate, nor the exception for a `null` lat or lon at lines 100-101. In the source such an exception is thrown inside `toMessage`, which runs from `flatMapCompletionStage` at line 94, so it fails the outgoing stream and no later incident is published.
- Logging, CDI injection and reactive-streams semantics beyond an ordered element-wise map.
