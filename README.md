# Dimensional-metrics emitter: a Dafny model

This project models the sequential decision logic of the infrastructure agent's
dimensional-metrics emitter (`pkg/integrations/outputhandler/v4/dm/emitter.go`). The
emitter takes forward requests, each a decoded v4 integration payload. It queues them,
starts its background processor on first use, and routes every dataset either to the
entity-registration path or straight to emission. It also emits a dataset's inventory and
events through the plugin emitter, gates raw v4 payloads before decoding, and composes the
summary error for datasets that could not be emitted.

Modules, one per component:

- `Results`: the Option and Result wrappers used for Go's nil-or-value returns.
- `Text`: Go's `%d` formatting of integers and its inverse. Also joining on a separator
  and splitting on it, and removing repeated messages while keeping first occurrences.
- `Protocol`: the data the emitter reads. This covers datasets, entities, events,
  inventory, forward requests and JSON values.
- `EmitError`: `composeEmitError`. A loop method is proved equal to a declarative
  description of the composed message, and lemmas say what that message contains.
- `PayloadGate`: the two checks `ParsePayloadV4` makes before decoding.
- `Events`: `attributesFromEvent`, `emitEvent` and `emitInventory`.
- `DmEmitter`: the `emitter` object as a class. It has the processing flag, the request
  queue, a log of the goroutines started and a log of the calls made to the two dataset
  paths. Its methods are the constructor (`NewEmitter`), `Send`, `lazyLoadProcessor` and
  `runFwReqConsumer`.

Collaborators outside the file are parameters. The JSON decoder, the event-data
constructor and the inventory delta builder are functions passed in and never
interpreted. The feature-flag retriever is a map from flag name to value. The plugin
emitter's calls are returned as sequences of recorded calls. Cancellation of the agent
context is a nondeterministic boolean at each point where the consumer checks its
context.

Where the design description and the code differ, the model follows the code:

- The design describes the lazy start as an atomic compare-and-set. The code reads the
  flag and then sets it (`emitter.go:113-114`). The model is sequential and claims nothing
  about races between concurrent callers of `Send`.
- The design places the identity-cache lookup in the forward-request consumer. In
  `emitter.go` the consumer only chooses between `processDatasetNoRegister` and
  `processDatasetRegister`, and the lookup happens inside code that is not part of this
  model.
- The design speaks of a "disabled" feature flag. The code also refuses a payload when the
  flag is missing from the retriever.
- The failure count in the composed error is the number of errors, repeats included. Only
  the reasons are de-duplicated.

## Model

| member | source | states |
|---|---|---|
| `EmitError.ComposeEmitError` | pkg/integrations/outputhandler/v4/dm/emitter.go:287-303 | The loop that builds the header, appends each unseen message with a comma and cuts the last character returns exactly `ComposedError`. That is nil for no errors, and otherwise the header followed by the comma-join of the distinct messages. |
| `EmitError.AppendDistinctMessages` | pkg/integrations/outputhandler/v4/dm/emitter.go:293-301 | The loop, with its set of seen messages, appends each distinct message once, in order of first occurrence, each followed by a comma. |
| `EmitError.ComposedErrorNilIffEmpty` | pkg/integrations/outputhandler/v4/dm/emitter.go:288-290 | The composed error is nil exactly when the error list is empty. |
| `EmitError.ComposedErrorHeader` | pkg/integrations/outputhandler/v4/dm/emitter.go:292 | A non-nil composed error begins with the header "N out of M datasets could not be emitted. Reasons: ". |
| `EmitError.HeaderReadsBack` | pkg/integrations/outputhandler/v4/dm/emitter.go:292 | The header begins with the failure count, then " out of ", then the dataset count. Both numbers parse back to the values formatted, including a negative dataset count. |
| `EmitError.ComposedErrorReasons` | pkg/integrations/outputhandler/v4/dm/emitter.go:293-302 | After the header, splitting at the commas gives back the de-duplicated messages, provided no message holds a comma. Each message that occurred appears exactly once, no other message appears, and the order is the order of first occurrence. |
| `EmitError.ComposedErrorExample` | pkg/integrations/outputhandler/v4/dm/emitter.go:287-303 | For errors "timeout", "invalid payload", "timeout" over 5 datasets the result is the header for 3 out of 5 followed by "timeout,invalid payload". |
| `Text.TerminatedIsJoin` | pkg/integrations/outputhandler/v4/dm/emitter.go:299-302 | Appending every message followed by a comma and then dropping the last character gives the comma-join of the messages. |
| `Text.SplitJoin` | pkg/integrations/outputhandler/v4/dm/emitter.go:299-302 | Splitting a comma-join gives back its parts when no part holds a comma. |
| `Text.DedupElements` | pkg/integrations/outputhandler/v4/dm/emitter.go:295-301 | A message is kept by de-duplication iff it occurs in the input. |
| `Text.DedupCounts` | pkg/integrations/outputhandler/v4/dm/emitter.go:297-300 | Every message of the input occurs exactly once in the de-duplicated list, however often it repeats. |
| `Text.DedupFirstOccurrenceOrder` | pkg/integrations/outputhandler/v4/dm/emitter.go:295-300 | The de-duplicated messages come in the order of their first occurrence in the input. |
| `Text.DedupSnoc` | pkg/integrations/outputhandler/v4/dm/emitter.go:297-300 | One more error adds its message iff the message has not been seen before. |
| `Text.NatDecimalRoundTrip` | pkg/integrations/outputhandler/v4/dm/emitter.go:292 | The decimal text `%d` writes for a count reads back as that count. |
| `Text.IntDecimalRoundTrip` | pkg/integrations/outputhandler/v4/dm/emitter.go:292 | The text `%d` writes for any int, with a minus sign when negative, reads back as that int. |
| `PayloadGate.ParsePayloadV4` | pkg/integrations/outputhandler/v4/dm/emitter.go:271-284 | The two ordered checks, empty input and then the protocol-v4 flag, followed by the decoder, which is passed in as a parameter. Data comes out only for non-empty input with the flag on, and it is the decoder's data. A decode failure carries the decoder's reason. The four lemmas below state the rest of its behaviour. |
| `PayloadGate.EmptyPayloadRejectedFirst` | pkg/integrations/outputhandler/v4/dm/emitter.go:272-275 | Empty input gives "no content to parse" whatever the feature flags hold, so this check comes before the flag check. |
| `PayloadGate.DisabledProtocolRejected` | pkg/integrations/outputhandler/v4/dm/emitter.go:277-280 | Non-empty input whose protocol-v4 flag is missing or false gives "integration protocol version 4 is not enabled". |
| `PayloadGate.GateRefusalIgnoresDecoder` | pkg/integrations/outputhandler/v4/dm/emitter.go:271-282 | When either check refuses, the result is the same for every decoder, so decoding is never attempted. |
| `PayloadGate.GatePassesOnlyDecodedData` | pkg/integrations/outputhandler/v4/dm/emitter.go:277-283 | Data comes out iff the input is non-empty, the flag is on and decoding succeeds, and it is the decoded data. A decoding failure is passed on as the error. |
| `Events.AttributesFromEvent` | pkg/integrations/outputhandler/v4/dm/emitter.go:252-260 | Exactly one `WithAttributes` option is appended, carrying the object, when the event's "attributes" value is an object. Otherwise the options are unchanged. |
| `Events.EmitEvent` | pkg/integrations/outputhandler/v4/dm/emitter.go:218-250 | The emitter calls made are exactly `EmittedEvents` over the shared options, the dataset's events and the entity name as key. |
| `Events.SharedOptionsContents` | pkg/integrations/outputhandler/v4/dm/emitter.go:219-232 | The shared options always begin with labels and annotations. They hold an entity option iff the entity ID is non-empty, naming the dataset's entity, and a user option iff the executor user is non-empty. |
| `Events.EventOptionsContents` | pkg/integrations/outputhandler/v4/dm/emitter.go:235-237 | An event's options are the shared ones, then exactly one `WithEvents` for that event. They hold a `WithAttributes` iff the event carries an attributes object. |
| `Events.EmittedEventsAppend` | pkg/integrations/outputhandler/v4/dm/emitter.go:234-249 | Emitting a list of events is emitting its parts one after the other, so an event's outcome does not depend on its siblings. |
| `Events.FailedEventSkipped` | pkg/integrations/outputhandler/v4/dm/emitter.go:239-248 | An event whose build fails is not emitted, and the events after it are emitted as if it were absent. |
| `Events.AllEventsEmitted` | pkg/integrations/outputhandler/v4/dm/emitter.go:234-249 | When every event builds, every event is emitted once, in order, with its own record and the dataset's key. |
| `Events.EmittedEventsBounded` | pkg/integrations/outputhandler/v4/dm/emitter.go:234-249 | There are no more emitter calls than events, and every call carries the entity key. |
| `Events.EmitInventory` | pkg/integrations/outputhandler/v4/dm/emitter.go:198-216 | The inventory is emitted iff it is non-empty. The delta is built from the inventory, labels, executor user, integration name and entity name, and is keyed by the entity name and ID. |
| `DmEmitter.Emitter.constructor` | pkg/integrations/outputhandler/v4/dm/emitter.go:79-102 | A new emitter is idle with empty queues. It has the default queue lengths (1000), 4 workers, batches of 100 entities and 1000*1000 bytes, a 1-second batch time, and the configured retry cap and log level. |
| `DmEmitter.Emitter.Send` | pkg/integrations/outputhandler/v4/dm/emitter.go:106-110 | With room in the queue, the request is appended and the processor is started if it was not running. With a full queue the call blocks and nothing changes. |
| `DmEmitter.Emitter.LazyLoadProcessor` | pkg/integrations/outputhandler/v4/dm/emitter.go:112-138 | If the flag was unset, it is set and the two consumers and `registerWorkers` workers are started, each worker with the same configuration. If it was set, nothing starts. The flag is set afterwards. |
| `DmEmitter.Emitter.RouteDataSets` | pkg/integrations/outputhandler/v4/dm/emitter.go:152-164 | The datasets of one request are dispatched in order, each to the path its `IgnoreEntity` selects. A cancellation stops the loop with a prefix dispatched. Without cancellation all of them are dispatched. |
| `DmEmitter.Emitter.RunFwReqConsumer` | pkg/integrations/outputhandler/v4/dm/emitter.go:142-167 | Without cancellation the queue is drained and the log grows by the routing of every request. On cancellation the flag is cleared, the requests taken are a prefix of the queue, their routing is dispatched up to a prefix, and only the request in progress can be cut short. Cancellation is seen before each request, before each dataset, and while idle on the drained queue, which is the usual shutdown. |
| `DmEmitter.Emitter.ProcessDatasetNoRegister` | pkg/integrations/outputhandler/v4/dm/emitter.go:159 | One call to the no-register path is recorded with the integration, the request metadata and the dataset. |
| `DmEmitter.Emitter.ProcessDatasetRegister` | pkg/integrations/outputhandler/v4/dm/emitter.go:161 | One call to the register path is recorded with the integration, the request metadata and the dataset. |
| `DmEmitter.StopAtRequest` | pkg/integrations/outputhandler/v4/dm/emitter.go:146-148 | A consumer cancelled before taking a request has dispatched every earlier request in full. |
| `DmEmitter.StopInRequest` | pkg/integrations/outputhandler/v4/dm/emitter.go:153-155 | A consumer cancelled inside a request has dispatched a prefix of that request's datasets and every earlier request in full. |
| `DmEmitter.RouteRequestSpec` | pkg/integrations/outputhandler/v4/dm/emitter.go:152-163 | Each dataset of a request is dispatched once, in its place, to no-register iff `IgnoreEntity` and to register otherwise, with the request's integration and metadata. |
| `DmEmitter.RouteAllAppend` | pkg/integrations/outputhandler/v4/dm/emitter.go:145-166 | Draining two queues one after the other dispatches what each does alone. |
| `DmEmitter.RouteAllSpec` | pkg/integrations/outputhandler/v4/dm/emitter.go:145-166 | An uninterrupted consumer dispatches every dataset of every request exactly once, in queue order, each to the path its `IgnoreEntity` selects. |
| `DmEmitter.StartedTasksSpec` | pkg/integrations/outputhandler/v4/dm/emitter.go:117-136 | One start launches `2 + registerWorkers` tasks: the forward-request consumer, the registered-request consumer, and identical registration workers. |

## Left out

- Goroutines, channels and blocking are not modelled as concurrency. The queue is a
  sequence, and the consumer is run as a method that drains it. Once the queue is empty
  the model checks for cancellation one last time. If it sees one, it clears the flag and
  returns cancelled. If it sees none, it stops, where the real consumer would wait for
  the next request. Go's random choice in `select` between a done context and a ready
  request is covered by the nondeterministic cancellation check.
- `DmEmitter.Emitter.Send`: a `Send` on a full queue does not return in Go. The model
  returns `blocked` and changes nothing, so it does not capture the later completion of
  that call.
- `DmEmitter.Emitter.LazyLoadProcessor`: the check-then-set of the flag is not atomic. The
  sequential model says nothing about two concurrent callers both starting the processor.
- `runReqsRegisteredConsumer`, the registration workers, the backoff policy and the
  identity cache live in code that is not part of this model. The workers are recorded
  only as started tasks with their configuration.
- `processDatasetRegister` and `processDatasetNoRegister` are recorded sinks. Their cache
  lookups, registration queueing and emission are not modelled.
- `emitDataset` (`emitter.go:169-180`) and `emitMetrics` (`emitter.go:182-196`) are not
  modelled. They consist of calls into code that is not part of this model:
  `LabelsAndExtraAnnotations`, `NewExternalPluginCommon`, `ProcessMetrics` and
  `SendMetricsWithCommonAttributes`. A metrics send error is only logged.
- `replaceEntityName` is not modelled. It depends on entity rewrites and localhost
  replacement outside the file, and its assignment goes to a by-value copy.
- Logging, the `measure` instrumentation counters, and the agent context and identity
  passed to workers are not modelled.
- `ParsePayloadV4` returns only the decoder's error when decoding fails. Go may also
  return partially filled data, and the model drops it. `json.Unmarshal` itself is a
  function parameter.
- The flag name `FlagProtocolV4` is defined in the feature-flag package, which is not part
  of this model. The model uses "protocol_v4". No property depends on the exact name.
- The empty entity ID is taken to be 0. The entity package, which defines `IsEmpty`, is
  not part of this model.
- Errors are modelled by their message text. A nil element in the error list, which would
  make Go panic, is not modelled.
- `EmitError.ComposedErrorReasons`: recovering the messages by splitting at commas needs
  messages without commas. With commas inside messages the composed text is ambiguous,
  as it is in Go. The equality with the comma-join of the de-duplicated messages holds
  for all inputs.
- JSON numbers are integers in the model. No emitter decision depends on them, and
  floating point is not modelled.
- `BuildInventoryDataSet` also receives a log entry. The model passes only its data
  arguments.
