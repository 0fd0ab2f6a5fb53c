/** The shapes of the software catalog that the provider writes into and the
    processor reads from: entities, references, relations, full mutations and
    the cursor-paged query interface. */
module Catalog {
  import opened Wrappers

  /** The `apiVersion` carried by every entity this plugin builds. */
  const ApiVersion: string := "backstage.io/v1alpha1"
  /** `ANNOTATION_LOCATION` of the catalog model library. */
  const AnnotationLocation: string := "backstage.io/managed-by-location"
  /** `ANNOTATION_ORIGIN_LOCATION` of the catalog model library. */
  const AnnotationOriginLocation: string := "backstage.io/managed-by-origin-location"

  const KindApi: string := "API"
  const KindComponent: string := "Component"

  const RelationApiConsumedBy: string := "apiConsumedBy"
  const RelationConsumesApi: string := "consumesApi"

  /** An entry of `metadata.links`. */
  datatype Link = Link(title: string, icon: string, url: string)

  /** `metadata` of a catalog entity. Keys a given entity does not carry are
      `None`; `consumedBy` is the custom field this plugin stores on API
      entities. */
  datatype Metadata = Metadata(
    name: string,
    namespace: string,
    description: Option<string>,
    title: Option<string>,
    labels: map<string, string>,
    annotations: map<string, string>,
    tags: seq<string>,
    links: Option<seq<Link>>,
    consumedBy: Option<seq<string>>)

  /** `spec` of a catalog entity; `specType` is the `spec.type` key. An entity
      without a `spec` has every key `None`. */
  datatype Spec = Spec(
    specType: Option<string>,
    lifecycle: Option<string>,
    system: Option<string>,
    owner: Option<string>,
    definition: Option<string>,
    providesApis: Option<seq<string>>)

  /** The generic entity envelope. */
  datatype Entity = Entity(apiVersion: string, kind: string, metadata: Metadata, spec: Spec)

  /** `{kind, namespace, name}`, the two ends of a relation. */
  datatype EntityRef = EntityRef(kind: string, namespace: string, name: string)

  /** A directed, typed edge between two entities. */
  datatype Relation = Relation(relationType: string, source: EntityRef, target: EntityRef)

  /** One entry of a mutation: the entity and the key that scopes it. */
  datatype DeferredEntity = DeferredEntity(entity: Entity, locationKey: string)

  /** A provider mutation; this plugin only ever submits `type: "full"`. */
  datatype Mutation = Full(entities: seq<DeferredEntity>)

  /** The filter of a catalog query: `kind`, `metadata.namespace` and
      `metadata.annotations.backstage.io/kubernetes-id`. */
  datatype Filter = Filter(kind: string, namespace: string, kubernetesId: string)

  /** `{filter, cursor, limit}` as given to `queryEntities`. */
  datatype Query = Query(filter: Filter, cursor: Option<string>, limit: int)

  /** `{items, pageInfo: {nextCursor}}` as returned by `queryEntities`. */
  datatype Page = Page(items: seq<Entity>, nextCursor: Option<string>)

  /** The catalog's paged query: a response page, or the error it throws. */
  type CatalogApi = Query -> Result<Page, string>

  /** Whether a cursor asks for another page: the source tests it for
      truthiness, so an absent cursor and the empty string both end paging. */
  predicate MorePages(cursor: Option<string>)
  {
    cursor.Some? && cursor.value != ""
  }

  /** What the catalog holds for one provider after a history of mutations:
      every full mutation replaces all that came before it. */
  function ProviderSlice(applied: seq<Mutation>): (slice: seq<DeferredEntity>)
    ensures applied == [] ==> slice == []
  {
    if applied == [] then [] else applied[|applied| - 1].entities
  }

  /** The provider's connection to the catalog: the store records every
      mutation submitted through it. */
  class EntityProviderConnection {
    var applied: seq<Mutation>

    constructor ()
      ensures applied == []
    {
      applied := [];
    }

    /** The entities the catalog currently holds for this provider. */
    function Current(): seq<DeferredEntity>
      reads this
    {
      ProviderSlice(applied)
    }

    method ApplyMutation(mutation: Mutation)
      modifies this
      ensures applied == old(applied) + [mutation]
      ensures Current() == mutation.entities
    {
      applied := applied + [mutation];
    }
  }
}
