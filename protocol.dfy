/** The data the emitter handles: the decoded v4 payload (its datasets, entities, events
    and inventory) and the forward request that carries it through the queues. Only the
    fields the emitter reads are kept. */
module Protocol {

  /** A decoded JSON value, as Go's `interface{}` holds it after unmarshalling. Numbers are
      kept as integers: no decision in the emitter depends on their value. */
  datatype Value =
    | Null
    | Bool(b: bool)
    | Number(n: int)
    | Str(s: string)
    | List(items: seq<Value>)
    | Object(fields: map<string, Value>)

  /** One event of a dataset: a JSON object. */
  type EventData = map<string, Value>

  /** A dataset's inventory: item name to its attributes. */
  type InventoryData = map<string, map<string, Value>>

  /** A remotely assigned entity identifier; 0 is the empty identifier. */
  type EntityID = nat

  const EmptyID: EntityID := 0

  predicate IsEmptyID(id: EntityID) {
    id == EmptyID
  }

  /** The entity a dataset reports on. */
  datatype EntityFields = EntityFields(name: string, entityType: string, displayName: string)

  /** One entity's worth of telemetry. */
  datatype Dataset = Dataset(
    entity: EntityFields,
    ignoreEntity: bool,
    common: map<string, Value>,
    metrics: seq<Value>,
    inventory: InventoryData,
    events: seq<EventData>)

  datatype IntegrationMetadata = IntegrationMetadata(name: string, version: string)

  /** A decoded v4 payload. */
  datatype DataV4 = DataV4(protocolVersion: string, integration: IntegrationMetadata, dataSets: seq<Dataset>)

  datatype ExecutorConfig = ExecutorConfig(user: string)

  /** The integration definition that produced a payload. */
  datatype Definition = Definition(name: string, executorConfig: ExecutorConfig, intervalSecs: int)

  datatype FwRequestMeta = FwRequestMeta(definition: Definition)

  /** A forward request: one payload queued for the emitter. */
  datatype FwRequest = FwRequest(meta: FwRequestMeta, data: DataV4)
}
