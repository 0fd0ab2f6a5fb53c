/** Scheduled ingestion: the entity provider that turns one fetched event mesh
    into catalog entities and submits them as one full mutation, and the rule
    by which `fromConfig` picks a task runner for each configured source. */
module EventMeshProvider {
  import opened Wrappers
  import opened Catalog
  import opened Knative

  const ProviderNamePrefix: string := "knative-event-mesh-provider-"
  const ErrorNotInitialized: string := "Not initialized"
  const ErrorNoScheduling: string := "Either schedule or scheduler must be provided."
  const ErrorNeitherScheduling: string := "Neither schedule nor scheduler is provided."
  const ApiRefPrefix: string := "api:"

  /** The error thrown for a source that has no schedule of its own while no
      task runner was supplied in code. */
  function ErrorNoSchedule(id: string): string
  {
    ErrorNoSchedulePrefix + id + "."
  }

  const ErrorNoSchedulePrefix: string := "No schedule provided neither via code nor config for KnativeEventMesh entity provider:"

  /** A scheduler service handle; it derives task runners from schedules. */
  datatype Scheduler = Scheduler(name: string)

  /** The task runner a provider is bound to: one supplied by the caller, or
      one a scheduler derived from a schedule definition. */
  datatype TaskRunner =
    | SuppliedRunner(name: string)
    | ScheduledRunner(scheduler: Scheduler, schedule: Schedule)

  /** The `schedule` and `scheduler` members of the `fromConfig` options. */
  datatype ProviderOptions = ProviderOptions(schedule: Option<TaskRunner>, scheduler: Option<Scheduler>)

  /** The value both location annotations are forced to. */
  function LocationValue(baseUrl: string): string
  {
    "url:" + baseUrl
  }

  /** The annotations of a built entity: the upstream map, or an empty one,
      with both location annotations overwritten by the source URL. */
  function LocationAnnotations(upstream: Option<map<string, string>>, baseUrl: string): (a: map<string, string>)
    ensures a.Keys == upstream.GetOr(map[]).Keys + {AnnotationOriginLocation, AnnotationLocation}
    ensures a[AnnotationOriginLocation] == LocationValue(baseUrl)
    ensures a[AnnotationLocation] == LocationValue(baseUrl)
    ensures forall k :: k in upstream.GetOr(map[]) && k != AnnotationOriginLocation && k != AnnotationLocation ==>
              a[k] == upstream.GetOr(map[])[k]
  {
    upstream.GetOr(map[])[AnnotationLocation := LocationValue(baseUrl)][AnnotationOriginLocation := LocationValue(baseUrl)]
  }

  /** Whether an optional string is present and not empty (the source tests
      `schemaURL` and `schemaData` for truthiness). */
  predicate NonEmpty(s: Option<string>)
  {
    s.Some? && s.value != ""
  }

  /** The human-readable title of an event type's API entity. */
  function EventTypeTitle(eventType: EventType): string
  {
    eventType.cloudEventType + " - (" + eventType.namespace + "/" + eventType.name + ")"
  }

  /** `providedEventTypes.map(t => "api:" + t)`. */
  function ApiRefs(names: seq<string>): (refs: seq<string>)
    ensures |refs| == |names|
    ensures forall i :: 0 <= i < |names| ==> refs[i] == ApiRefPrefix + names[i]
  {
    if names == [] then [] else [ApiRefPrefix + names[0]] + ApiRefs(names[1..])
  }

  /** The inverse of `ApiRefs`: the event type names a list of references
      points at. */
  function ApiRefTargets(refs: seq<string>): (names: seq<string>)
    requires forall i :: 0 <= i < |refs| ==> |ApiRefPrefix| <= |refs[i]|
    ensures |names| == |refs|
  {
    if refs == [] then [] else [refs[0][|ApiRefPrefix|..]] + ApiRefTargets(refs[1..])
  }

  lemma {:induction false} ApiRefsRoundTrip(names: seq<string>)
    ensures forall i :: 0 <= i < |ApiRefs(names)| ==> |ApiRefPrefix| <= |ApiRefs(names)[i]|
    ensures ApiRefTargets(ApiRefs(names)) == names
  {
    if names != [] {
      ApiRefsRoundTrip(names[1..]);
      assert ApiRefs(names)[1..] == ApiRefs(names[1..]);
      assert (ApiRefPrefix + names[0])[|ApiRefPrefix|..] == names[0];
    }
  }

  /** The planned task runner of one source (the body of the `map` callback
      in `fromConfig`), or the error it throws. */
  function SelectTaskRunner(options: ProviderOptions, config: SourceConfig): (r: Result<TaskRunner, string>)
    ensures r.Failure? <==> (options.schedule.None? && config.schedule.None?) || (options.schedule.None? && options.scheduler.None?)
    ensures options.schedule.None? && config.schedule.None? ==> r == Failure(ErrorNoSchedule(config.id))
    ensures options.scheduler.Some? && config.schedule.Some? ==>
              r == Success(ScheduledRunner(options.scheduler.value, config.schedule.value))
    ensures options.schedule.Some? && (options.scheduler.None? || config.schedule.None?) ==>
              r == Success(options.schedule.value)
  {
    if options.schedule.None? && config.schedule.None? then
      Failure(ErrorNoSchedule(config.id))
    else if options.scheduler.Some? && config.schedule.Some? then
      Success(ScheduledRunner(options.scheduler.value, config.schedule.value))
    else if options.schedule.Some? then
      Success(options.schedule.value)
    else
      Failure(ErrorNeitherScheduling)
  }

  /** The task runners `fromConfig` binds, one per source in order, or the
      first error it throws. */
  function PlanTaskRunners(options: ProviderOptions, configs: seq<SourceConfig>): Result<seq<TaskRunner>, string>
  {
    if options.schedule.None? && options.scheduler.None? then Failure(ErrorNoScheduling)
    else PlanEach(options, configs)
  }

  function PlanEach(options: ProviderOptions, configs: seq<SourceConfig>): Result<seq<TaskRunner>, string>
    decreases |configs|
  {
    if configs == [] then Success([])
    else match SelectTaskRunner(options, configs[0])
      case Failure(e) => Failure(e)
      case Success(runner) =>
        match PlanEach(options, configs[1..])
        case Failure(e) => Failure(e)
        case Success(rest) => Success([runner] + rest)
  }

  /** Whether some source lacks any schedule. */
  predicate SomeSourceUnscheduled(options: ProviderOptions, configs: seq<SourceConfig>)
  {
    options.schedule.None? && exists i :: 0 <= i < |configs| && configs[i].schedule.None?
  }

  lemma {:induction false} PlanEachSucceeds(options: ProviderOptions, configs: seq<SourceConfig>)
    requires options.schedule.Some? || options.scheduler.Some?
    requires !SomeSourceUnscheduled(options, configs)
    ensures PlanEach(options, configs).Success?
    ensures |PlanEach(options, configs).value| == |configs|
    ensures forall i :: 0 <= i < |configs| ==>
              PlanEach(options, configs).value[i] == SelectTaskRunner(options, configs[i]).value
    decreases |configs|
  {
    if configs != [] {
      assert !SomeSourceUnscheduled(options, configs[1..]) by {
        if options.schedule.None? {
          forall i | 0 <= i < |configs[1..]| ensures configs[1..][i].schedule.Some? {
            assert configs[1..][i] == configs[i + 1];
          }
        }
      }
      PlanEachSucceeds(options, configs[1..]);
      var rest := PlanEach(options, configs[1..]).value;
      forall i | 0 <= i < |configs|
        ensures PlanEach(options, configs).value[i] == SelectTaskRunner(options, configs[i]).value
      {
        if i > 0 { assert configs[1..][i - 1] == configs[i]; }
      }
    }
  }

  lemma {:induction false} PlanEachFails(options: ProviderOptions, configs: seq<SourceConfig>, k: nat)
    requires options.schedule.Some? || options.scheduler.Some?
    requires k < |configs| && options.schedule.None? && configs[k].schedule.None?
    requires forall i :: 0 <= i < k ==> configs[i].schedule.Some?
    ensures PlanEach(options, configs) == Failure(ErrorNoSchedule(configs[k].id))
    decreases k
  {
    if k > 0 {
      PlanEachFails(options, configs[1..], k - 1);
    }
  }

  /** `fromConfig` fails exactly when neither a runner nor a scheduler is
      given, or when some source has no schedule while no runner is given;
      the error is the first one the source throws, and the third error
      branch of the selection is never reached. Otherwise every source gets
      the scheduler-derived runner when both exist, the supplied one else. */
  lemma PlanTaskRunnersSpec(options: ProviderOptions, configs: seq<SourceConfig>)
    ensures options.schedule.None? && options.scheduler.None? ==>
              PlanTaskRunners(options, configs) == Failure(ErrorNoScheduling)
    ensures (options.schedule.Some? || options.scheduler.Some?) && SomeSourceUnscheduled(options, configs) ==>
              exists k :: 0 <= k < |configs| && configs[k].schedule.None? &&
                PlanTaskRunners(options, configs) == Failure(ErrorNoSchedule(configs[k].id)) &&
                forall i :: 0 <= i < k ==> configs[i].schedule.Some?
    ensures PlanTaskRunners(options, configs).Failure? <==>
              (options.schedule.None? && options.scheduler.None?) || SomeSourceUnscheduled(options, configs)
    ensures PlanTaskRunners(options, configs) != Failure(ErrorNeitherScheduling)
    ensures PlanTaskRunners(options, configs).Success? ==>
              |PlanTaskRunners(options, configs).value| == |configs| &&
              forall i :: 0 <= i < |configs| ==>
                PlanTaskRunners(options, configs).value[i] ==
                  (if options.scheduler.Some? && configs[i].schedule.Some?
                   then ScheduledRunner(options.scheduler.value, configs[i].schedule.value)
                   else options.schedule.value)
  {
    if options.schedule.Some? || options.scheduler.Some? {
      if SomeSourceUnscheduled(options, configs) {
        var k := FirstUnscheduled(configs);
        PlanEachFails(options, configs, k);
        assert |ErrorNeitherScheduling| < |ErrorNoSchedulePrefix| <= |ErrorNoSchedule(configs[k].id)|;
      } else {
        PlanEachSucceeds(options, configs);
      }
    }
  }

  /** The index of the first source without a schedule. */
  function FirstUnscheduled(configs: seq<SourceConfig>): (k: nat)
    requires exists i :: 0 <= i < |configs| && configs[i].schedule.None?
    ensures k < |configs| && configs[k].schedule.None?
    ensures forall i :: 0 <= i < k ==> configs[i].schedule.Some?
  {
    if configs[0].schedule.None? then 0
    else
      assert exists i :: 0 <= i < |configs[1..]| && configs[1..][i].schedule.None? by {
        var i :| 0 <= i < |configs| && configs[i].schedule.None?;
        assert configs[1..][i - 1] == configs[i];
      }
      1 + FirstUnscheduled(configs[1..])
  }

  /** One configured source of the event mesh, bound to a task runner; its
      connection to the catalog is set later by `Connect`. */
  class KnativeEventMeshProvider {
    const env: string
    const baseUrl: string
    const taskRunner: TaskRunner
    var connection: EntityProviderConnection?

    constructor (config: SourceConfig, taskRunner: TaskRunner)
      ensures env == config.id && baseUrl == config.baseUrl
      ensures this.taskRunner == taskRunner && connection == null
    {
      env := config.id;
      baseUrl := config.baseUrl;
      this.taskRunner := taskRunner;
      connection := null;
    }

    /** The provider's name, which is also the location key of everything it
      submits: the fixed prefix followed by the source id, from which the id
      can be read back. */
    function GetProviderName(): (name: string)
      ensures |ProviderNamePrefix| <= |name|
      ensures name[..|ProviderNamePrefix|] == ProviderNamePrefix
      ensures name[|ProviderNamePrefix|..] == env
    {
      ProviderNamePrefix + env
    }

    /** The API entity of an event type. */
    function BuildEventTypeEntity(eventType: EventType): (e: Entity)
      ensures e.apiVersion == ApiVersion && e.kind == KindApi
      ensures e.metadata.name == eventType.name && e.metadata.namespace == eventType.namespace
      ensures e.metadata.description == eventType.description
      ensures e.metadata.annotations == LocationAnnotations(eventType.annotations, baseUrl)
      ensures e.metadata.labels == eventType.labels.GetOr(map[])
      ensures e.metadata.tags == []
      ensures e.metadata.links.Some?
      ensures NonEmpty(eventType.schemaURL) ==>
                e.metadata.links.value == [Link("View external schema", "scaffolder", eventType.schemaURL.value)]
      ensures !NonEmpty(eventType.schemaURL) ==> e.metadata.links.value == []
      ensures e.metadata.title == Some(EventTypeTitle(eventType))
      ensures e.metadata.consumedBy == Some(eventType.consumedBy.GetOr([]))
      ensures e.spec.specType == Some(TypeKnativeEvent) && e.spec.lifecycle == Some(env)
      ensures e.spec.system == Some(SystemKnative) && e.spec.owner == Some(OwnerKnative)
      ensures e.spec.definition == Some(if NonEmpty(eventType.schemaData) then eventType.schemaData.value else "{}")
      ensures e.spec.providesApis.None?
    {
      var links := if NonEmpty(eventType.schemaURL)
        then [Link("View external schema", "scaffolder", eventType.schemaURL.value)]
        else [];
      Entity(
        ApiVersion,
        KindApi,
        Metadata(
          eventType.name,
          eventType.namespace,
          eventType.description,
          Some(EventTypeTitle(eventType)),
          eventType.labels.GetOr(map[]),
          LocationAnnotations(eventType.annotations, baseUrl),
          [],
          Some(links),
          Some(eventType.consumedBy.GetOr([]))),
        Spec(
          Some(TypeKnativeEvent),
          Some(env),
          Some(SystemKnative),
          Some(OwnerKnative),
          Some(if NonEmpty(eventType.schemaData) then eventType.schemaData.value else "{}"),
          None))
    }

    /** The Component entity of a broker. */
    function BuildBrokerEntity(broker: Broker): (e: Entity)
      ensures e.apiVersion == ApiVersion && e.kind == KindComponent
      ensures e.metadata.name == broker.name && e.metadata.namespace == broker.namespace
      ensures e.metadata.annotations == LocationAnnotations(broker.annotations, baseUrl)
      ensures e.metadata.labels == broker.labels.GetOr(map[])
      ensures e.metadata.tags == []
      ensures e.metadata.description.None? && e.metadata.title.None?
      ensures e.metadata.links.None? && e.metadata.consumedBy.None?
      ensures e.spec.specType == Some(TypeKnativeBroker) && e.spec.lifecycle == Some(env)
      ensures e.spec.system == Some(SystemKnative) && e.spec.owner == Some(OwnerKnative)
      ensures e.spec.definition.None? && e.spec.providesApis.Some?
      ensures |e.spec.providesApis.value| == |broker.providedEventTypes.GetOr([])|
      ensures forall i :: 0 <= i < |broker.providedEventTypes.GetOr([])| ==>
                e.spec.providesApis.value[i] == ApiRefPrefix + broker.providedEventTypes.GetOr([])[i]
    {
      Entity(
        ApiVersion,
        KindComponent,
        Metadata(
          broker.name,
          broker.namespace,
          None,
          None,
          broker.labels.GetOr(map[]),
          LocationAnnotations(broker.annotations, baseUrl),
          [],
          None,
          None),
        Spec(
          Some(TypeKnativeBroker),
          Some(env),
          Some(SystemKnative),
          Some(OwnerKnative),
          None,
          Some(if broker.providedEventTypes.None? then [] else ApiRefs(broker.providedEventTypes.value))))
    }

    /** The API entities of a list of event types, in order. */
    function EventTypeEntities(eventTypes: seq<EventType>): (entities: seq<Entity>)
      ensures |entities| == |eventTypes|
      ensures forall i :: 0 <= i < |eventTypes| ==> entities[i] == BuildEventTypeEntity(eventTypes[i])
    {
      seq(|eventTypes|, i requires 0 <= i < |eventTypes| => BuildEventTypeEntity(eventTypes[i]))
    }

    /** The Component entities of a list of brokers, in order. */
    function BrokerEntities(brokers: seq<Broker>): (entities: seq<Entity>)
      ensures |entities| == |brokers|
      ensures forall j :: 0 <= j < |brokers| ==> entities[j] == BuildBrokerEntity(brokers[j])
    {
      seq(|brokers|, j requires 0 <= j < |brokers| => BuildBrokerEntity(brokers[j]))
    }

    /** The entities of one event mesh: one per event type in order, then one
        per broker in order. */
    function EntitiesOf(eventMesh: EventMesh): (entities: seq<Entity>)
      ensures |entities| == |eventMesh.eventTypes| + |eventMesh.brokers|
      ensures forall i :: 0 <= i < |eventMesh.eventTypes| ==>
                entities[i] == BuildEventTypeEntity(eventMesh.eventTypes[i])
      ensures forall j :: 0 <= j < |eventMesh.brokers| ==>
                entities[|eventMesh.eventTypes| + j] == BuildBrokerEntity(eventMesh.brokers[j])
    {
      EventTypeEntities(eventMesh.eventTypes) + BrokerEntities(eventMesh.brokers)
    }

    /** `buildEntities`: the two loops that push the built entities. */
    method BuildEntities(eventMesh: EventMesh) returns (entities: seq<Entity>)
      ensures entities == EntitiesOf(eventMesh)
    {
      var eventTypes := eventMesh.eventTypes;
      var brokers := eventMesh.brokers;
      entities := [];
      for i := 0 to |eventTypes|
        invariant entities == EventTypeEntities(eventTypes[..i])
      {
        var entity := BuildEventTypeEntity(eventTypes[i]);
        EventTypeEntitiesPush(this, eventTypes, i);
        entities := entities + [entity];
      }
      assert eventTypes[..|eventTypes|] == eventTypes;
      ghost var apis := entities;
      for j := 0 to |brokers|
        invariant entities == apis + BrokerEntities(brokers[..j])
      {
        var entity := BuildBrokerEntity(brokers[j]);
        BrokerEntitiesPush(this, brokers, j);
        assert apis + BrokerEntities(brokers[..j]) + [entity] == apis + (BrokerEntities(brokers[..j]) + [entity]);
        entities := entities + [entity];
      }
      assert brokers[..|brokers|] == brokers;
    }

    /** The entries of the full mutation: every entity, in order, tagged
        with this provider's location key. */
    function MutationEntries(entities: seq<Entity>): (entries: seq<DeferredEntity>)
      ensures |entries| == |entities|
      ensures forall i :: 0 <= i < |entries| ==>
                entries[i].entity == entities[i] && entries[i].locationKey == GetProviderName()
    {
      seq(|entities|, i requires 0 <= i < |entities| => DeferredEntity(entities[i], GetProviderName()))
    }

    /** Stores the connection. (The source then arms the schedule.) */
    method Connect(c: EntityProviderConnection)
      modifies this
      ensures connection == c
    {
      connection := c;
    }

    /** One tick of work. `fetched` is the outcome of the HTTP fetch of
        `baseUrl`. Without a connection it fails with "Not initialized"; a
        failed fetch submits nothing; otherwise exactly one full mutation of
        all built entities is submitted, and it replaces what the catalog
        held for this provider. */
    method Run(fetched: Result<EventMesh, string>) returns (outcome: Outcome<string>)
      modifies connection
      ensures connection == old(connection)
      ensures old(connection) == null ==> outcome == Fail(ErrorNotInitialized)
      ensures connection != null && fetched.Failure? ==>
                outcome == Fail(fetched.error) && connection.applied == old(connection.applied)
      ensures connection != null && fetched.Success? ==>
                outcome == Pass &&
                connection.applied == old(connection.applied) + [Full(MutationEntries(EntitiesOf(fetched.value)))] &&
                connection.Current() == MutationEntries(EntitiesOf(fetched.value))
    {
      if connection == null {
        return Fail(ErrorNotInitialized);
      }
      if fetched.Failure? {
        return Fail(fetched.error);
      }
      var entities := BuildEntities(fetched.value);
      connection.ApplyMutation(Full(MutationEntries(entities)));
      outcome := Pass;
    }

    /** `fromConfig`: one provider per configured source, in order, each
        bound to the runner `PlanTaskRunners` selects, or the first error. */
    static method FromConfig(configs: seq<SourceConfig>, options: ProviderOptions)
      returns (r: Result<seq<KnativeEventMeshProvider>, string>)
      ensures PlanTaskRunners(options, configs).Failure? ==>
                r == Failure(PlanTaskRunners(options, configs).error)
      ensures PlanTaskRunners(options, configs).Success? ==>
                r.Success? && |r.value| == |configs| &&
                |PlanTaskRunners(options, configs).value| == |configs| &&
                forall i :: 0 <= i < |configs| ==>
                  fresh(r.value[i]) && r.value[i].connection == null &&
                  r.value[i].env == configs[i].id && r.value[i].baseUrl == configs[i].baseUrl &&
                  r.value[i].taskRunner == PlanTaskRunners(options, configs).value[i]
      ensures r.Success? ==> forall i, j :: 0 <= i < j < |r.value| ==> r.value[i] != r.value[j]
    {
      if options.schedule.None? && options.scheduler.None? {
        return Failure(ErrorNoScheduling);
      }
      var providers: seq<KnativeEventMeshProvider> := [];
      for i := 0 to |configs|
        invariant |providers| == i
        invariant forall k :: 0 <= k < i ==>
                    fresh(providers[k]) && providers[k].connection == null &&
                    providers[k].env == configs[k].id && providers[k].baseUrl == configs[k].baseUrl &&
                    SelectTaskRunner(options, configs[k]) == Success(providers[k].taskRunner)
        invariant forall k, l :: 0 <= k < l < i ==> providers[k] != providers[l]
      {
        var runner := SelectTaskRunner(options, configs[i]);
        if runner.Failure? {
          PlanEachFails(options, configs, i);
          return Failure(runner.error);
        }
        var provider := new KnativeEventMeshProvider(configs[i], runner.value);
        providers := providers + [provider];
      }
      PlanEachSucceeds(options, configs);
      r := Success(providers);
    }
  }

  /** Distinct sources submit under distinct location keys, so one source's
      full mutation never replaces another's entities. */
  lemma DistinctSourcesDistinctKeys(p: KnativeEventMeshProvider, q: KnativeEventMeshProvider)
    requires p.env != q.env
    ensures p.GetProviderName() != q.GetProviderName()
  {
  }

  /** The `providesApis` of a broker entity name exactly the broker's
      provided event types, in order. */
  lemma BrokerApisRoundTrip(p: KnativeEventMeshProvider, broker: Broker)
    ensures var apis := p.BuildBrokerEntity(broker).spec.providesApis.value;
            (forall i :: 0 <= i < |apis| ==> |ApiRefPrefix| <= |apis[i]|) &&
            ApiRefTargets(apis) == broker.providedEventTypes.GetOr([])
  {
    ApiRefsRoundTrip(broker.providedEventTypes.GetOr([]));
  }

  /** Forcing the location annotations a second time changes nothing. */
  lemma LocationAnnotationsIdempotent(upstream: Option<map<string, string>>, baseUrl: string)
    ensures LocationAnnotations(Some(LocationAnnotations(upstream, baseUrl)), baseUrl) == LocationAnnotations(upstream, baseUrl)
  {
  }

  /** Building one more event type appends its entity. */
  lemma EventTypeEntitiesPush(p: KnativeEventMeshProvider, eventTypes: seq<EventType>, i: nat)
    requires i < |eventTypes|
    ensures p.EventTypeEntities(eventTypes[..i + 1]) == p.EventTypeEntities(eventTypes[..i]) + [p.BuildEventTypeEntity(eventTypes[i])]
  {
  }

  /** Building one more broker appends its entity. */
  lemma BrokerEntitiesPush(p: KnativeEventMeshProvider, brokers: seq<Broker>, j: nat)
    requires j < |brokers|
    ensures p.BrokerEntities(brokers[..j + 1]) == p.BrokerEntities(brokers[..j]) + [p.BuildBrokerEntity(brokers[j])]
  {
  }

  /** The snapshot a second build of the same fetched mesh sees: the first
      build wrote the forced annotations into every record's own map. */
  function ForcedMesh(eventMesh: EventMesh, baseUrl: string): (forced: EventMesh)
    ensures |forced.eventTypes| == |eventMesh.eventTypes| && |forced.brokers| == |eventMesh.brokers|
    ensures forall i :: 0 <= i < |eventMesh.eventTypes| ==>
              forced.eventTypes[i] == eventMesh.eventTypes[i].(annotations := Some(LocationAnnotations(eventMesh.eventTypes[i].annotations, baseUrl)))
    ensures forall j :: 0 <= j < |eventMesh.brokers| ==>
              forced.brokers[j] == eventMesh.brokers[j].(annotations := Some(LocationAnnotations(eventMesh.brokers[j].annotations, baseUrl)))
  {
    EventMesh(
      seq(|eventMesh.eventTypes|, i requires 0 <= i < |eventMesh.eventTypes| =>
        eventMesh.eventTypes[i].(annotations := Some(LocationAnnotations(eventMesh.eventTypes[i].annotations, baseUrl)))),
      seq(|eventMesh.brokers|, j requires 0 <= j < |eventMesh.brokers| =>
        eventMesh.brokers[j].(annotations := Some(LocationAnnotations(eventMesh.brokers[j].annotations, baseUrl)))))
  }

  lemma RebuildEventType(p: KnativeEventMeshProvider, eventType: EventType)
    ensures p.BuildEventTypeEntity(eventType.(annotations := Some(LocationAnnotations(eventType.annotations, p.baseUrl))))
         == p.BuildEventTypeEntity(eventType)
  {
    LocationAnnotationsIdempotent(eventType.annotations, p.baseUrl);
  }

  lemma RebuildBroker(p: KnativeEventMeshProvider, broker: Broker)
    ensures p.BuildBrokerEntity(broker.(annotations := Some(LocationAnnotations(broker.annotations, p.baseUrl))))
         == p.BuildBrokerEntity(broker)
  {
    LocationAnnotationsIdempotent(broker.annotations, p.baseUrl);
  }

  /** Building the same snapshot twice gives the same entities, although the
      second build reads the annotation maps the first one rewrote. */
  lemma RebuildUnchanged(p: KnativeEventMeshProvider, eventMesh: EventMesh)
    ensures p.EntitiesOf(ForcedMesh(eventMesh, p.baseUrl)) == p.EntitiesOf(eventMesh)
  {
    var forced := ForcedMesh(eventMesh, p.baseUrl);
    forall i | 0 <= i < |eventMesh.eventTypes|
      ensures p.EventTypeEntities(forced.eventTypes)[i] == p.EventTypeEntities(eventMesh.eventTypes)[i]
    {
      RebuildEventType(p, eventMesh.eventTypes[i]);
    }
    forall j | 0 <= j < |eventMesh.brokers|
      ensures p.BrokerEntities(forced.brokers)[j] == p.BrokerEntities(eventMesh.brokers)[j]
    {
      RebuildBroker(p, eventMesh.brokers[j]);
    }
    assert p.EventTypeEntities(forced.eventTypes) == p.EventTypeEntities(eventMesh.eventTypes);
    assert p.BrokerEntities(forced.brokers) == p.BrokerEntities(eventMesh.brokers);
  }

  /** In a built list the API entities come first, exactly one per event
      type, and the Component entities after them. */
  lemma EntitiesOfKinds(p: KnativeEventMeshProvider, eventMesh: EventMesh)
    ensures forall i :: 0 <= i < |p.EntitiesOf(eventMesh)| ==>
              (p.EntitiesOf(eventMesh)[i].kind == KindApi <==> i < |eventMesh.eventTypes|) &&
              (p.EntitiesOf(eventMesh)[i].kind == KindComponent <==> i >= |eventMesh.eventTypes|)
  {
  }
}
