/** Emission of a registered dataset's inventory and events to the plugin emitter. The
    builders the emitter calls (the event-data constructor and the inventory delta builder)
    are functions given by the caller; calls to the plugin emitter are returned in order. */
module Events {
  import opened Results
  import opened Protocol

  /** An entity reference: the entity key (its name) and its identifier. */
  datatype EntityRef = EntityRef(key: string, id: EntityID)

  /** The options an event record is built from. */
  datatype EventOption =
    | WithLabels(labels: map<string, string>)
    | WithAnnotations(annotations: map<string, string>)
    | WithEntity(entity: EntityRef)
    | WithIntegrationUser(user: string)
    | WithEvents(event: EventData)
    | WithAttributes(attributes: map<string, Value>)

  /** One call to the plugin emitter's EmitEvent: the built record and the entity key. */
  datatype EventEmission<E> = EventEmission(record: E, entityKey: string)

  /** One call to the plugin emitter's EmitInventory: the built delta and the entity. */
  datatype InventoryEmission<I> = InventoryEmission(delta: I, entity: EntityRef)

  // ---------------------------------------------------------------------------
  // Event options

  /** The event's own attributes: present when its "attributes" key holds a JSON object. */
  predicate HasObjectAttributes(event: EventData) {
    "attributes" in event && event["attributes"].Object?
  }

  /** Appends a WithAttributes option when the event's "attributes" value is an object and
      leaves the options alone otherwise (a missing key or any other kind of value). */
  method AttributesFromEvent(event: EventData, builder: seq<EventOption>) returns (built: seq<EventOption>)
    ensures |built| == |builder| + (if HasObjectAttributes(event) then 1 else 0)
    ensures built[..|builder|] == builder
    ensures HasObjectAttributes(event) ==> built[|builder|] == WithAttributes(event["attributes"].fields)
  {
    built := builder;
    if "attributes" in event {
      match event["attributes"]
      case Object(t) =>
        built := built + [WithAttributes(t)];
      case _ =>
    }
  }

  /** The options every event of a dataset shares. */
  function SharedOptions(labels: map<string, string>, annotations: map<string, string>,
                         entityName: string, entityID: EntityID, user: string): seq<EventOption>
  {
    [WithLabels(labels), WithAnnotations(annotations)]
    + (if !IsEmptyID(entityID) then [WithEntity(EntityRef(entityName, entityID))] else [])
    + (if user != "" then [WithIntegrationUser(user)] else [])
  }

  /** The options one event is built from: the shared ones, the event, its attributes. */
  function EventOptions(shared: seq<EventOption>, event: EventData): seq<EventOption>
  {
    shared + [WithEvents(event)]
    + (if HasObjectAttributes(event) then [WithAttributes(event["attributes"].fields)] else [])
  }

  /** The emitter calls made for `events`: one per event whose build succeeds, in order. */
  function EmittedEvents<E>(shared: seq<EventOption>, events: seq<EventData>,
                            build: seq<EventOption> -> Result<E, string>, key: string): seq<EventEmission<E>>
  {
    if events == [] then []
    else
      var before := EmittedEvents(shared, events[..|events| - 1], build, key);
      match build(EventOptions(shared, events[|events| - 1]))
      case Success(record) => before + [EventEmission(record, key)]
      case Failure(_) => before
  }

  /** Emits every event of the dataset: builds the shared options, then for each event its
      own options, and hands each record that builds to the emitter; a record that fails
      to build is skipped. `build` is the event-data constructor. */
  method EmitEvent<E>(definition: Definition, dataSet: Dataset, labels: map<string, string>,
                      annotations: map<string, string>, entityID: EntityID,
                      build: seq<EventOption> -> Result<E, string>)
    returns (emitted: seq<EventEmission<E>>)
    ensures emitted == EmittedEvents(
              SharedOptions(labels, annotations, dataSet.entity.name, entityID,
                            definition.executorConfig.user),
              dataSet.events, build, dataSet.entity.name)
  {
    var sharedOpts := [WithLabels(labels), WithAnnotations(annotations)];
    if !IsEmptyID(entityID) {
      sharedOpts := sharedOpts + [WithEntity(EntityRef(dataSet.entity.name, entityID))];
    }
    var u := definition.executorConfig.user;
    if u != "" {
      sharedOpts := sharedOpts + [WithIntegrationUser(u)];
    }
    assert sharedOpts == SharedOptions(labels, annotations, dataSet.entity.name, entityID, u);
    var key := dataSet.entity.name;
    var events := dataSet.events;
    emitted := [];
    for i := 0 to |events|
      invariant emitted == EmittedEvents(sharedOpts, events[..i], build, key)
    {
      var event := events[i];
      var opts := sharedOpts + [WithEvents(event)];
      opts := AttributesFromEvent(event, opts);
      assert opts == EventOptions(sharedOpts, event);
      assert events[..i + 1][..i] == events[..i];
      var e := build(opts);
      if e.Failure? {
        continue;
      }
      emitted := emitted + [EventEmission(e.value, key)];
    }
    assert events[..|events|] == events;
  }

  /** The shared options always begin with the labels and the annotations; they hold an
      entity option exactly when the entity ID is not empty (and then it names the
      dataset's entity), and a user option exactly when the user is not empty. */
  lemma SharedOptionsContents(labels: map<string, string>, annotations: map<string, string>,
                              entityName: string, entityID: EntityID, user: string)
    ensures var shared := SharedOptions(labels, annotations, entityName, entityID, user);
            && |shared| >= 2
            && shared[0] == WithLabels(labels) && shared[1] == WithAnnotations(annotations)
            && ((exists i :: 0 <= i < |shared| && shared[i].WithEntity?) <==> !IsEmptyID(entityID))
            && (forall i :: 0 <= i < |shared| && shared[i].WithEntity? ==>
                  shared[i].entity == EntityRef(entityName, entityID))
            && ((exists i :: 0 <= i < |shared| && shared[i].WithIntegrationUser?) <==> user != "")
            && (forall i :: 0 <= i < |shared| && shared[i].WithIntegrationUser? ==>
                  shared[i].user == user)
  {
    var shared := SharedOptions(labels, annotations, entityName, entityID, user);
    if !IsEmptyID(entityID) {
      assert shared[2].WithEntity?;
    }
    if user != "" {
      assert shared[|shared| - 1].WithIntegrationUser?;
    }
  }

  /** An event's options extend the shared ones with exactly one WithEvents option, for
      that event, and with a WithAttributes option exactly when the event carries an
      attributes object. */
  lemma EventOptionsContents(shared: seq<EventOption>, event: EventData)
    requires forall i :: 0 <= i < |shared| ==> !shared[i].WithEvents? && !shared[i].WithAttributes?
    ensures var opts := EventOptions(shared, event);
            && opts[..|shared|] == shared
            && (forall i :: 0 <= i < |opts| && opts[i].WithEvents? ==> i == |shared| && opts[i].event == event)
            && opts[|shared|] == WithEvents(event)
            && ((exists i :: 0 <= i < |opts| && opts[i].WithAttributes?) <==> HasObjectAttributes(event))
  {
    var opts := EventOptions(shared, event);
    if HasObjectAttributes(event) {
      assert opts[|opts| - 1].WithAttributes?;
    }
  }

  /** Emission of a list of events is emission of its parts one after the other: what
      happens to one event does not depend on its siblings. */
  lemma {:induction false} EmittedEventsAppend<E>(shared: seq<EventOption>, a: seq<EventData>, b: seq<EventData>,
                                                  build: seq<EventOption> -> Result<E, string>, key: string)
    ensures EmittedEvents(shared, a + b, build, key)
         == EmittedEvents(shared, a, build, key) + EmittedEvents(shared, b, build, key)
  {
    if b == [] {
      assert a + b == a;
    } else {
      var init := b[..|b| - 1];
      EmittedEventsAppend(shared, a, init, build, key);
      assert (a + b)[..|a + b| - 1] == a + init;
    }
  }

  /** An event whose build fails is not emitted, and the events after it still are. */
  lemma FailedEventSkipped<E>(shared: seq<EventOption>, before: seq<EventData>, event: EventData,
                              after: seq<EventData>, build: seq<EventOption> -> Result<E, string>,
                              key: string)
    requires build(EventOptions(shared, event)).Failure?
    ensures EmittedEvents(shared, before + [event] + after, build, key)
         == EmittedEvents(shared, before, build, key) + EmittedEvents(shared, after, build, key)
  {
    EmittedEventsAppend(shared, before + [event], after, build, key);
    assert (before + [event])[..|before|] == before;
  }

  /** When every event builds, every event is emitted, in order, under the dataset's key. */
  lemma {:induction false} AllEventsEmitted<E>(shared: seq<EventOption>, events: seq<EventData>,
                                               build: seq<EventOption> -> Result<E, string>, key: string)
    requires forall i :: 0 <= i < |events| ==> build(EventOptions(shared, events[i])).Success?
    ensures var emitted := EmittedEvents(shared, events, build, key);
            && |emitted| == |events|
            && forall i :: 0 <= i < |events| ==>
                 emitted[i] == EventEmission(build(EventOptions(shared, events[i])).value, key)
  {
    if events != [] {
      var init := events[..|events| - 1];
      AllEventsEmitted(shared, init, build, key);
    }
  }

  /** No more calls than events, and every call carries the dataset's entity key. */
  lemma {:induction false} EmittedEventsBounded<E>(shared: seq<EventOption>, events: seq<EventData>,
                                                   build: seq<EventOption> -> Result<E, string>, key: string)
    ensures var emitted := EmittedEvents(shared, events, build, key);
            && |emitted| <= |events|
            && forall i :: 0 <= i < |emitted| ==> emitted[i].entityKey == key
  {
    if events != [] {
      EmittedEventsBounded(shared, events[..|events| - 1], build, key);
    }
  }

  // ---------------------------------------------------------------------------
  // Inventory

  /** Hands the dataset's inventory to the emitter only when there is some: the delta is
      built from the inventory, the labels, the executor user, the integration name and
      the entity name, and is keyed by the entity. `buildInventory` is the delta builder. */
  function EmitInventory<I>(definition: Definition, integration: IntegrationMetadata,
                            entityID: EntityID, dataSet: Dataset, labels: map<string, string>,
                            buildInventory: (InventoryData, map<string, string>, string, string, string) -> I)
    : (r: Option<InventoryEmission<I>>)
    ensures r.Some? <==> |dataSet.inventory| > 0
    ensures r.Some? ==> r.value.entity == EntityRef(dataSet.entity.name, entityID)
    ensures r.Some? ==> r.value.delta == buildInventory(dataSet.inventory, labels,
                                                        definition.executorConfig.user,
                                                        integration.name, dataSet.entity.name)
  {
    if |dataSet.inventory| > 0 then
      var delta := buildInventory(dataSet.inventory, labels, definition.executorConfig.user,
                                  integration.name, dataSet.entity.name);
      Some(InventoryEmission(delta, EntityRef(dataSet.entity.name, entityID)))
    else
      None
  }
}
