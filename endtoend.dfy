/** How the two halves meet: the entities the provider builds are the ones
    the processor enriches, and a worked ingestion and enrichment example. */
module EndToEnd {
  import opened Wrappers
  import opened Catalog
  import opened Knative
  import opened EventMeshProvider
  import opened EventMeshProcessor

  /** A built event type entity is recognised by the processor, and its
      relations are driven by the event type's `consumedBy` alone (none when
      it has no consumers). */
  lemma BuiltEventTypeIsEnriched(p: KnativeEventMeshProvider, q: KnativeEventMeshProcessor, eventType: EventType)
    requires forall c :: c in eventType.consumedBy.GetOr([]) ==> q.LookupEnds(eventType.namespace, c)
    ensures IsKnativeEventTypeApi(p.BuildEventTypeEntity(eventType))
    ensures q.CanEnrich(p.BuildEventTypeEntity(eventType))
    ensures q.EmittedFor(p.BuildEventTypeEntity(eventType)) ==
              RelationsFor(EntityRef(KindApi, eventType.namespace, eventType.name),
                           q.FoundFor(eventType.namespace, eventType.consumedBy.GetOr([])))
    ensures eventType.consumedBy.GetOr([]) == [] ==> q.EmittedFor(p.BuildEventTypeEntity(eventType)) == []
  {
  }

  /** Broker entities never produce relations. */
  lemma BrokerIsNotEnriched(p: KnativeEventMeshProvider, q: KnativeEventMeshProcessor, broker: Broker)
    ensures !IsKnativeEventTypeApi(p.BuildBrokerEntity(broker))
    ensures q.CanEnrich(p.BuildBrokerEntity(broker)) && q.EmittedFor(p.BuildBrokerEntity(broker)) == []
  {
  }

  function OrderCreated(): EventType
  {
    EventType("order-created", "ns1", "event", "", None, None, None, None, None, Some(["billing"]))
  }

  function DefaultBroker(): Broker
  {
    Broker("default", "ns1", "", None, None, Some(["order-created"]))
  }

  /** A catalog holding one component, annotated `billing`, in `ns1`. */
  function BillingCatalog(billing: Entity): CatalogApi
  {
    OffsetCatalog((f: Filter) => if f == ComponentFilter("ns1", "billing") then [billing] else [])
  }

  /** The entities built for one event type and one broker providing it:
      the API entity first, then the Component entity. */
  lemma OrderCreatedEntities(p: KnativeEventMeshProvider)
    requires p.baseUrl == "http://mesh.local"
    ensures var es := p.EntitiesOf(EventMesh([OrderCreated()], [DefaultBroker()]));
            && |es| == 2
            && es[0] == p.BuildEventTypeEntity(OrderCreated())
            && es[0].kind == KindApi && es[0].metadata.name == "order-created"
            && es[0].spec.specType == Some(TypeKnativeEvent)
            && es[0].metadata.annotations[AnnotationLocation] == LocationValue("http://mesh.local")
            && es[1].kind == KindComponent && es[1].metadata.name == "default"
            && es[1].spec.providesApis == Some([ApiRefPrefix + "order-created"])
  {
    var es := p.EntitiesOf(EventMesh([OrderCreated()], [DefaultBroker()]));
    var providesApis := es[1].spec.providesApis.value;
    assert |providesApis| == 1 && providesApis[0] == ApiRefPrefix + "order-created";
    assert providesApis == [ApiRefPrefix + "order-created"];
  }

  /** With the `billing` component of `ns1` the only match for its consumer,
      the built `order-created` API entity yields exactly the two relations
      between it and `billing`. */
  lemma OrderCreatedRelations(p: KnativeEventMeshProvider, q: KnativeEventMeshProcessor, billing: Entity)
    requires billing.metadata.namespace == "ns1" && billing.metadata.name == "billing"
    requires q.catalogApi == BillingCatalog(billing) && q.queryEntityPageLimit >= 1
    ensures q.CanEnrich(p.BuildEventTypeEntity(OrderCreated()))
    ensures q.EmittedFor(p.BuildEventTypeEntity(OrderCreated())) ==
              [Relation(RelationApiConsumedBy, EntityRef(KindApi, "ns1", "order-created"), EntityRef(KindComponent, "ns1", "billing")),
               Relation(RelationConsumesApi, EntityRef(KindComponent, "ns1", "billing"), EntityRef(KindApi, "ns1", "order-created"))]
  {
    OffsetCatalogComplete((f: Filter) => if f == ComponentFilter("ns1", "billing") then [billing] else [],
                          ComponentFilter("ns1", "billing"), q.queryEntityPageLimit);
    assert q.Lookup("ns1", "billing") == [billing];
    BuiltEventTypeIsEnriched(p, q, OrderCreated());
    var found := q.FoundFor("ns1", ["billing"]);
    assert found == [[billing]];
    var api := EntityRef(KindApi, "ns1", "order-created");
    assert found[..0] == [] && [billing][..0] == [];
    assert RelationPairs(api, [billing]) == ConsumerPair(api, ComponentRef(billing));
    assert RelationsFor(api, found) == RelationPairs(api, [billing]);
  }

  /** The event mesh of one event type consumed by `billing` and one broker
      providing it: an API entity and a Component entity, and with `billing`
      in the catalog exactly the two relations between them. */
  lemma OrderCreatedExample(p: KnativeEventMeshProvider, q: KnativeEventMeshProcessor, billing: Entity)
    requires p.baseUrl == "http://mesh.local"
    requires billing.metadata.namespace == "ns1" && billing.metadata.name == "billing"
    requires q.catalogApi == BillingCatalog(billing) && q.queryEntityPageLimit >= 1
    ensures var es := p.EntitiesOf(EventMesh([OrderCreated()], [DefaultBroker()]));
            && |es| == 2
            && es[0].kind == KindApi && es[0].metadata.name == "order-created"
            && es[1].kind == KindComponent && es[1].metadata.name == "default"
            && es[1].spec.providesApis == Some([ApiRefPrefix + "order-created"])
            && q.CanEnrich(es[0])
            && q.EmittedFor(es[0]) ==
                 [Relation(RelationApiConsumedBy, EntityRef(KindApi, "ns1", "order-created"), EntityRef(KindComponent, "ns1", "billing")),
                  Relation(RelationConsumesApi, EntityRef(KindComponent, "ns1", "billing"), EntityRef(KindApi, "ns1", "order-created"))]
  {
    OrderCreatedEntities(p);
    OrderCreatedRelations(p, q, billing);
  }

  /** The slice one successful tick submits for a mesh: an entry per built
      entity under the provider's name, the API entities named after the
      event types, then the Component entities named after the brokers. */
  lemma MeshSlice(p: KnativeEventMeshProvider, eventMesh: EventMesh)
    ensures var slice := p.MutationEntries(p.EntitiesOf(eventMesh));
      |slice| == |eventMesh.eventTypes| + |eventMesh.brokers| &&
      (forall i :: 0 <= i < |slice| ==> slice[i].locationKey == p.GetProviderName()) &&
      (forall i :: 0 <= i < |eventMesh.eventTypes| ==>
         slice[i].entity.kind == KindApi && slice[i].entity.metadata.name == eventMesh.eventTypes[i].name) &&
      (forall j :: 0 <= j < |eventMesh.brokers| ==>
         slice[|eventMesh.eventTypes| + j].entity.kind == KindComponent &&
         slice[|eventMesh.eventTypes| + j].entity.metadata.name == eventMesh.brokers[j].name)
  {
  }

  /** Three ticks of one source: a successful fetch, a failed one, another
      successful one. The failure leaves the first slice in place; the last
      tick replaces it entirely with the entities of the second mesh. */
  method ReconcileScenario(config: SourceConfig, runner: TaskRunner, first: EventMesh, second: EventMesh, error: string)
    returns (afterFirst: seq<DeferredEntity>, afterFailure: seq<DeferredEntity>, afterSecond: seq<DeferredEntity>)
    ensures |afterFirst| == |first.eventTypes| + |first.brokers|
    ensures forall i :: 0 <= i < |afterFirst| ==> afterFirst[i].locationKey == ProviderNamePrefix + config.id
    ensures forall i :: 0 <= i < |first.eventTypes| ==>
              afterFirst[i].entity.kind == KindApi && afterFirst[i].entity.metadata.name == first.eventTypes[i].name
    ensures forall j :: 0 <= j < |first.brokers| ==>
              afterFirst[|first.eventTypes| + j].entity.kind == KindComponent &&
              afterFirst[|first.eventTypes| + j].entity.metadata.name == first.brokers[j].name
    ensures afterFailure == afterFirst
    ensures |afterSecond| == |second.eventTypes| + |second.brokers|
    ensures forall i :: 0 <= i < |afterSecond| ==> afterSecond[i].locationKey == ProviderNamePrefix + config.id
    ensures forall i :: 0 <= i < |second.eventTypes| ==>
              afterSecond[i].entity.kind == KindApi && afterSecond[i].entity.metadata.name == second.eventTypes[i].name
    ensures forall j :: 0 <= j < |second.brokers| ==>
              afterSecond[|second.eventTypes| + j].entity.kind == KindComponent &&
              afterSecond[|second.eventTypes| + j].entity.metadata.name == second.brokers[j].name
  {
    var provider := new KnativeEventMeshProvider(config, runner);
    var connection := new EntityProviderConnection();
    provider.Connect(connection);
    var outcome := provider.Run(Success(first));
    afterFirst := connection.Current();
    assert afterFirst == provider.MutationEntries(provider.EntitiesOf(first));
    outcome := provider.Run(Failure(error));
    afterFailure := connection.Current();
    assert afterFailure == afterFirst;
    outcome := provider.Run(Success(second));
    afterSecond := connection.Current();
    assert afterSecond == provider.MutationEntries(provider.EntitiesOf(second));
    MeshSlice(provider, first);
    MeshSlice(provider, second);
  }
}
