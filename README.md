# Knative event mesh catalog backend, modelled in Dafny

This project models the backend plugin that mirrors a Knative event mesh into a
Backstage software catalog. It has two halves.

- **`KnativeEventMeshProvider`** (module `EventMeshProvider`) does scheduled ingestion.
  For each configured source it builds catalog entities from one fetched event mesh.
  Each event type becomes an `API` entity with `spec.type` `eventType`. Each broker
  becomes a `Component` entity with `spec.type` `broker`. `Run` submits all of them
  as one full mutation, under the provider's location key. `FromConfig` chooses the
  task runner of each source or rejects the configuration.
- **`KnativeEventMeshProcessor`** (module `EventMeshProcessor`) does relation enrichment.
  For an event type API entity, it looks up the components of each declared
  consumer through the catalog's cursor-paged query. For each match it emits an
  `apiConsumedBy` relation and its mirror, `consumesApi`.

The other modules:

- `Catalog` holds the catalog's shapes (entities, references, relations, mutations,
  paged queries) and the provider connection. The connection records the mutations
  submitted through it.
- `Knative` holds the event mesh records and the plugin's constants.
- `EndToEnd` ties the two halves together and works one example through.

The collaborators are modelled as follows:

- The HTTP fetch is a parameter of `Run`: `Success(eventMesh)` or `Failure(statusText)`.
- The catalog's `queryEntities` is a total function from a query to a page or an error.
- The scheduler is a value that a task runner is derived from.

The JavaScript truthiness tests are modelled as written:

- An empty `schemaURL` adds no link.
- An empty `schemaData` becomes `"{}"`.
- An empty-string `nextCursor` ends paging, just like an absent one.

The two location annotation keys are the `ANNOTATION_LOCATION` and
`ANNOTATION_ORIGIN_LOCATION` constants of the catalog model library, which is not part
of this model. Their values are spelled out in `Catalog`.

## Model

Source cells are paths within the repository, with line ranges.

| member | source | states |
|---|---|---|
| EventMeshProvider.LocationAnnotations | dynamic-plugins-root/knative-extensions-plugin-knative-event-mesh-backend-dynamic-0.0.0-nightly/dist/cjs/knativeEventMeshProcessor-b7893559.cjs.js:147-148 | the keys are the upstream keys (or none) plus both location keys; both location annotations are `url:<baseUrl>` whatever upstream said; every other upstream annotation is kept unchanged |
| EventMeshProvider.LocationAnnotationsIdempotent | dynamic-plugins-root/knative-extensions-plugin-knative-event-mesh-backend-dynamic-0.0.0-nightly/dist/cjs/knativeEventMeshProcessor-b7893559.cjs.js:186-187 | forcing the location annotations onto an already forced map changes nothing |
| EventMeshProvider.ApiRefs | dynamic-plugins-root/knative-extensions-plugin-knative-event-mesh-backend-dynamic-0.0.0-nightly/dist/cjs/knativeEventMeshProcessor-b7893559.cjs.js:204 | same length as the event type names and, position by position, `api:` followed by the name |
| EventMeshProvider.ApiRefsRoundTrip | dynamic-plugins-root/knative-extensions-plugin-knative-event-mesh-backend-dynamic-0.0.0-nightly/dist/cjs/knativeEventMeshProcessor-b7893559.cjs.js:204 | stripping the `api:` prefix from the references gives back the names, in order |
| EventMeshProvider.BrokerApisRoundTrip | dynamic-plugins-root/knative-extensions-plugin-knative-event-mesh-backend-dynamic-0.0.0-nightly/dist/cjs/knativeEventMeshProcessor-b7893559.cjs.js:204 | a broker entity's `providesApis` names exactly its `providedEventTypes` in order, or nothing when they are absent |
| EventMeshProvider.SelectTaskRunner | dynamic-plugins-root/knative-extensions-plugin-knative-event-mesh-backend-dynamic-0.0.0-nightly/dist/cjs/knativeEventMeshProcessor-b7893559.cjs.js:67-77 | fails exactly when no runner is supplied and the source has no schedule (with the per-source message), or when neither runner nor scheduler exists; it uses the scheduler-derived runner when a scheduler and a source schedule both exist, and the supplied runner otherwise |
| EventMeshProvider.PlanTaskRunners | dynamic-plugins-root/knative-extensions-plugin-knative-event-mesh-backend-dynamic-0.0.0-nightly/dist/cjs/knativeEventMeshProcessor-b7893559.cjs.js:61-83 | definition: the "Either schedule or scheduler" error when neither exists, otherwise the per-source selection over all sources; its properties are `PlanEachSucceeds`, `PlanEachFails` and `PlanTaskRunnersSpec` |
| EventMeshProvider.PlanEach | dynamic-plugins-root/knative-extensions-plugin-knative-event-mesh-backend-dynamic-0.0.0-nightly/dist/cjs/knativeEventMeshProcessor-b7893559.cjs.js:66-83 | definition: the `map` over the sources, aborting on the first source whose selection throws; the runners otherwise, in source order |
| EventMeshProvider.PlanEachSucceeds | dynamic-plugins-root/knative-extensions-plugin-knative-event-mesh-backend-dynamic-0.0.0-nightly/dist/cjs/knativeEventMeshProcessor-b7893559.cjs.js:66-83 | when every source can be scheduled, there is one runner per source, in order, each the one the selection rule picks |
| EventMeshProvider.PlanEachFails | dynamic-plugins-root/knative-extensions-plugin-knative-event-mesh-backend-dynamic-0.0.0-nightly/dist/cjs/knativeEventMeshProcessor-b7893559.cjs.js:66-69 | the first unschedulable source aborts the whole mapping, with its own id in the message |
| EventMeshProvider.PlanTaskRunnersSpec | dynamic-plugins-root/knative-extensions-plugin-knative-event-mesh-backend-dynamic-0.0.0-nightly/dist/cjs/knativeEventMeshProcessor-b7893559.cjs.js:59-84 | fails with the "Either schedule or scheduler" error when both are missing; otherwise fails exactly when some source has no schedule and no runner was supplied, naming the first such source; the "Neither schedule nor scheduler" branch is never reached; on success one runner per source, chosen by the rule |
| EventMeshProvider.KnativeEventMeshProvider.FromConfig | dynamic-plugins-root/knative-extensions-plugin-knative-event-mesh-backend-dynamic-0.0.0-nightly/dist/cjs/knativeEventMeshProcessor-b7893559.cjs.js:59-84 | returns the planned error, or one fresh, unconnected provider per source in order, pairwise distinct objects, each carrying that source's id, URL and planned runner |
| EventMeshProvider.KnativeEventMeshProvider.constructor | dynamic-plugins-root/knative-extensions-plugin-knative-event-mesh-backend-dynamic-0.0.0-nightly/dist/cjs/knativeEventMeshProcessor-b7893559.cjs.js:46-58 | the provider takes the source id and base URL and its task runner, and has no connection yet |
| EventMeshProvider.KnativeEventMeshProvider.GetProviderName | dynamic-plugins-root/knative-extensions-plugin-knative-event-mesh-backend-dynamic-0.0.0-nightly/dist/cjs/knativeEventMeshProcessor-b7893559.cjs.js:111-113 | the name is the fixed `knative-event-mesh-provider-` prefix followed by the source id, which can be read back from it |
| EventMeshProvider.DistinctSourcesDistinctKeys | dynamic-plugins-root/knative-extensions-plugin-knative-event-mesh-backend-dynamic-0.0.0-nightly/dist/cjs/knativeEventMeshProcessor-b7893559.cjs.js:127-130 | providers of different sources submit under different location keys |
| EventMeshProvider.EventTypeTitle | dynamic-plugins-root/knative-extensions-plugin-knative-event-mesh-backend-dynamic-0.0.0-nightly/dist/cjs/knativeEventMeshProcessor-b7893559.cjs.js:169 | definition: the title `<type> - (<namespace>/<name>)` of an event type API entity |
| EventMeshProvider.KnativeEventMeshProvider.BuildEventTypeEntity | dynamic-plugins-root/knative-extensions-plugin-knative-event-mesh-backend-dynamic-0.0.0-nightly/dist/cjs/knativeEventMeshProcessor-b7893559.cjs.js:145-183 | an `API` entity of `spec.type` `eventType`; the source id is its lifecycle, with the Knative system and owner; name, namespace and description are copied; labels default to empty; annotations are forced; no tags; exactly one schema link when `schemaURL` is non-empty, none otherwise; the title is `type - (namespace/name)`; `consumedBy` defaults to empty; `definition` defaults to `{}` |
| EventMeshProvider.KnativeEventMeshProvider.BuildBrokerEntity | dynamic-plugins-root/knative-extensions-plugin-knative-event-mesh-backend-dynamic-0.0.0-nightly/dist/cjs/knativeEventMeshProcessor-b7893559.cjs.js:184-207 | a `Component` entity of `spec.type` `broker`; the source id is its lifecycle, with the Knative system and owner; name and namespace are copied; labels default to empty; annotations are forced; no tags, links, title or consumers; `providesApis` has the same length as the provided event types and holds each one prefixed with `api:` |
| EventMeshProvider.KnativeEventMeshProvider.EntitiesOf | dynamic-plugins-root/knative-extensions-plugin-knative-event-mesh-backend-dynamic-0.0.0-nightly/dist/cjs/knativeEventMeshProcessor-b7893559.cjs.js:133-144 | one entity per event type in input order, then one per broker in input order; the length is their sum |
| EventMeshProvider.KnativeEventMeshProvider.BuildEntities | dynamic-plugins-root/knative-extensions-plugin-knative-event-mesh-backend-dynamic-0.0.0-nightly/dist/cjs/knativeEventMeshProcessor-b7893559.cjs.js:133-144 | the two push loops produce exactly `EntitiesOf` of the mesh |
| EventMeshProvider.EntitiesOfKinds | dynamic-plugins-root/knative-extensions-plugin-knative-event-mesh-backend-dynamic-0.0.0-nightly/dist/cjs/knativeEventMeshProcessor-b7893559.cjs.js:135-142 | a built entity is an API exactly when its position lies among the event types, and a Component exactly when it lies among the brokers |
| EventMeshProvider.ForcedMesh | dynamic-plugins-root/knative-extensions-plugin-knative-event-mesh-backend-dynamic-0.0.0-nightly/dist/cjs/knativeEventMeshProcessor-b7893559.cjs.js:147-148 | the snapshot a second build reads: the same event types and brokers, in order, each with its annotation map replaced by the forced one the first build wrote into it (lines 147-148 and 186-187) |
| EventMeshProvider.RebuildUnchanged | dynamic-plugins-root/knative-extensions-plugin-knative-event-mesh-backend-dynamic-0.0.0-nightly/dist/cjs/knativeEventMeshProcessor-b7893559.cjs.js:133-207 | building a snapshot whose annotation maps were already forced in place gives the same entity list as the first build did |
| EventMeshProvider.KnativeEventMeshProvider.MutationEntries | dynamic-plugins-root/knative-extensions-plugin-knative-event-mesh-backend-dynamic-0.0.0-nightly/dist/cjs/knativeEventMeshProcessor-b7893559.cjs.js:127-130 | one entry per entity, in order, every one carrying the same location key, the provider name |
| EventMeshProvider.KnativeEventMeshProvider.Connect | dynamic-plugins-root/knative-extensions-plugin-knative-event-mesh-backend-dynamic-0.0.0-nightly/dist/cjs/knativeEventMeshProcessor-b7893559.cjs.js:114-117 | the connection is stored |
| EventMeshProvider.KnativeEventMeshProvider.Run | dynamic-plugins-root/knative-extensions-plugin-knative-event-mesh-backend-dynamic-0.0.0-nightly/dist/cjs/knativeEventMeshProcessor-b7893559.cjs.js:118-132 | without a connection it fails with "Not initialized"; a failed fetch fails with its error and submits nothing; otherwise exactly one full mutation of all built entities under the provider name is appended, and the catalog's slice for the provider becomes exactly those entries |
| Catalog.EntityProviderConnection.ApplyMutation | dynamic-plugins-root/knative-extensions-plugin-knative-event-mesh-backend-dynamic-0.0.0-nightly/dist/cjs/knativeEventMeshProcessor-b7893559.cjs.js:125-131 | the mutation is recorded, and a full mutation replaces the provider's slice of the catalog |
| Catalog.ProviderSlice | dynamic-plugins-root/knative-extensions-plugin-knative-event-mesh-backend-dynamic-0.0.0-nightly/dist/cjs/knativeEventMeshProcessor-b7893559.cjs.js:125-131 | the provider's current slice under full-replace semantics: nothing before any mutation, otherwise exactly the entries of the last full mutation, whatever came before it |
| EventMeshProcessor.KnativeEventMeshProcessor.constructor | dynamic-plugins-root/knative-extensions-plugin-knative-event-mesh-backend-dynamic-0.0.0-nightly/dist/cjs/knativeEventMeshProcessor-b7893559.cjs.js:217-226 | the page limit is the given one, or 10000 when none is given |
| EventMeshProcessor.ComponentFilter | dynamic-plugins-root/knative-extensions-plugin-knative-event-mesh-backend-dynamic-0.0.0-nightly/dist/cjs/knativeEventMeshProcessor-b7893559.cjs.js:290-295 | definition: the fixed lookup filter, kind `component` (lower case), the namespace and the kubernetes-id annotation value |
| EventMeshProcessor.Drain | dynamic-plugins-root/knative-extensions-plugin-knative-event-mesh-backend-dynamic-0.0.0-nightly/dist/cjs/knativeEventMeshProcessor-b7893559.cjs.js:289-306 | definition: paging from a cursor with a fixed filter and limit, at most `fuel` queries; the pages' items concatenated in order, the first error, or none when the fuel runs out; an absent or empty next cursor ends it |
| EventMeshProcessor.ComponentsFound | dynamic-plugins-root/knative-extensions-plugin-knative-event-mesh-backend-dynamic-0.0.0-nightly/dist/cjs/knativeEventMeshProcessor-b7893559.cjs.js:285-307 | definition: the items of a paging that ends, or nothing when it ended in an error; `ComponentsFoundByFuel` shows it does not depend on the bound used |
| EventMeshProcessor.KnativeEventMeshProcessor.Lookup | dynamic-plugins-root/knative-extensions-plugin-knative-event-mesh-backend-dynamic-0.0.0-nightly/dist/cjs/knativeEventMeshProcessor-b7893559.cjs.js:285-307 | definition: `ComponentsFound` for the fixed filter of a namespace and consumer id and the processor's page limit |
| EventMeshProcessor.KnativeEventMeshProcessor.FindComponentsByBackstageId | dynamic-plugins-root/knative-extensions-plugin-knative-event-mesh-backend-dynamic-0.0.0-nightly/dist/cjs/knativeEventMeshProcessor-b7893559.cjs.js:285-307 | the do/while loop returns exactly what paging with the fixed component filter and limit yields: the pages' items concatenated in order when every query succeeds, nothing when any fails |
| EventMeshProcessor.DrainMonotone | dynamic-plugins-root/knative-extensions-plugin-knative-event-mesh-backend-dynamic-0.0.0-nightly/dist/cjs/knativeEventMeshProcessor-b7893559.cjs.js:289-301 | once paging from a cursor has ended, allowing more queries does not change its result |
| EventMeshProcessor.ComponentsFoundByFuel | dynamic-plugins-root/knative-extensions-plugin-knative-event-mesh-backend-dynamic-0.0.0-nightly/dist/cjs/knativeEventMeshProcessor-b7893559.cjs.js:289-305 | the lookup result is the paging result however the number of queries is bounded, as long as it suffices |
| EventMeshProcessor.NothingFoundIsEmpty | dynamic-plugins-root/knative-extensions-plugin-knative-event-mesh-backend-dynamic-0.0.0-nightly/dist/cjs/knativeEventMeshProcessor-b7893559.cjs.js:289-306 | when no component matches, or the first query fails, the lookup ends and returns nothing |
| EventMeshProcessor.LaterFailureDiscardsPages | dynamic-plugins-root/knative-extensions-plugin-knative-event-mesh-backend-dynamic-0.0.0-nightly/dist/cjs/knativeEventMeshProcessor-b7893559.cjs.js:300-306 | when the second query fails, the items of the first page are dropped and the lookup returns nothing |
| EventMeshProcessor.FailingChainFails | dynamic-plugins-root/knative-extensions-plugin-knative-event-mesh-backend-dynamic-0.0.0-nightly/dist/cjs/knativeEventMeshProcessor-b7893559.cjs.js:289-306 | paging along a cursor chain that the catalog hands out page after page and whose last query fails ends in that failure, within as many queries as the chain is long |
| EventMeshProcessor.FailureAnywhereDiscardsPages | dynamic-plugins-root/knative-extensions-plugin-knative-event-mesh-backend-dynamic-0.0.0-nightly/dist/cjs/knativeEventMeshProcessor-b7893559.cjs.js:285-307 | a failing query anywhere in the chain from the first page makes the lookup end and return nothing, whatever the earlier pages held |
| EventMeshProcessor.OffsetDrain | dynamic-plugins-root/knative-extensions-plugin-knative-event-mesh-backend-dynamic-0.0.0-nightly/dist/cjs/knativeEventMeshProcessor-b7893559.cjs.js:289-301 | against a store that serves `limit` items per page, paging from an offset returns the whole rest of the answer |
| EventMeshProcessor.OffsetCatalogComplete | dynamic-plugins-root/knative-extensions-plugin-knative-event-mesh-backend-dynamic-0.0.0-nightly/dist/cjs/knativeEventMeshProcessor-b7893559.cjs.js:289-302 | against that store, paging ends and returns exactly the unpaginated answer, for every page limit of at least one |
| EventMeshProcessor.IsKnativeEventTypeApi | dynamic-plugins-root/knative-extensions-plugin-knative-event-mesh-backend-dynamic-0.0.0-nightly/dist/cjs/knativeEventMeshProcessor-b7893559.cjs.js:232 | definition: the entity is of kind `API` and its `spec.type` is `eventType` |
| EventMeshProcessor.RelationPairs | dynamic-plugins-root/knative-extensions-plugin-knative-event-mesh-backend-dynamic-0.0.0-nightly/dist/cjs/knativeEventMeshProcessor-b7893559.cjs.js:244-280 | definition: for each matched component in order, `apiConsumedBy` from the API to it followed by `consumesApi` back |
| EventMeshProcessor.RelationsFor | dynamic-plugins-root/knative-extensions-plugin-knative-event-mesh-backend-dynamic-0.0.0-nightly/dist/cjs/knativeEventMeshProcessor-b7893559.cjs.js:240-281 | definition: the pairs of every consumer's matches, consumer by consumer in order |
| EventMeshProcessor.KnativeEventMeshProcessor.FoundFor | dynamic-plugins-root/knative-extensions-plugin-knative-event-mesh-backend-dynamic-0.0.0-nightly/dist/cjs/knativeEventMeshProcessor-b7893559.cjs.js:240-243 | one lookup result per consumer, in order, each the lookup of that consumer in the entity's namespace |
| EventMeshProcessor.KnativeEventMeshProcessor.EmittedFor | dynamic-plugins-root/knative-extensions-plugin-knative-event-mesh-backend-dynamic-0.0.0-nightly/dist/cjs/knativeEventMeshProcessor-b7893559.cjs.js:230-284 | definition: nothing unless the entity is a Knative event type API with a `consumedBy` list; otherwise the relations for the lookups of its consumers |
| EventMeshProcessor.KnativeEventMeshProcessor.PreProcessEntity | dynamic-plugins-root/knative-extensions-plugin-knative-event-mesh-backend-dynamic-0.0.0-nightly/dist/cjs/knativeEventMeshProcessor-b7893559.cjs.js:230-284 | returns the entity unchanged; the relations emitted by the nested loops are exactly `EmittedFor` of the entity |
| EventMeshProcessor.RelationPairsAt | dynamic-plugins-root/knative-extensions-plugin-knative-event-mesh-backend-dynamic-0.0.0-nightly/dist/cjs/knativeEventMeshProcessor-b7893559.cjs.js:244-280 | the k-th matched component yields relation 2k, `apiConsumedBy` from the API to it, and relation 2k+1, `consumesApi` from it to the API |
| EventMeshProcessor.RelationsForPaired | dynamic-plugins-root/knative-extensions-plugin-knative-event-mesh-backend-dynamic-0.0.0-nightly/dist/cjs/knativeEventMeshProcessor-b7893559.cjs.js:240-281 | across all consumers, the relations come in (apiConsumedBy, mirror) pairs from the API, two per matched component |
| EventMeshProcessor.PairedSymmetric | dynamic-plugins-root/knative-extensions-plugin-knative-event-mesh-backend-dynamic-0.0.0-nightly/dist/cjs/knativeEventMeshProcessor-b7893559.cjs.js:246-279 | in a paired list, every relation's mirror (ends swapped, type inverted) is also in the list |
| EventMeshProcessor.EmittedForSpec | dynamic-plugins-root/knative-extensions-plugin-knative-event-mesh-backend-dynamic-0.0.0-nightly/dist/cjs/knativeEventMeshProcessor-b7893559.cjs.js:230-284 | nothing is emitted unless the entity is an `API` of `spec.type` `eventType` with `consumedBy`; what is emitted is paired from the entity's reference, symmetric, and twice as long as the number of matches |
| EventMeshProcessor.UnmatchedConsumersEmitNothing | dynamic-plugins-root/knative-extensions-plugin-knative-event-mesh-backend-dynamic-0.0.0-nightly/dist/cjs/knativeEventMeshProcessor-b7893559.cjs.js:240-244 | consumers with no matching component, or whose lookup fails, emit no relations and raise no error |
| EventMeshProcessor.NoMatchesNoRelations | dynamic-plugins-root/knative-extensions-plugin-knative-event-mesh-backend-dynamic-0.0.0-nightly/dist/cjs/knativeEventMeshProcessor-b7893559.cjs.js:240-281 | when no consumer matched any component, there are no matches and no relations |
| EndToEnd.BuiltEventTypeIsEnriched | dynamic-plugins-root/knative-extensions-plugin-knative-event-mesh-backend-dynamic-0.0.0-nightly/dist/cjs/knativeEventMeshProcessor-b7893559.cjs.js:173-176 | a built event type entity passes the processor's type check, and its relations are driven by the event type's consumers alone (none without consumers) |
| EndToEnd.BrokerIsNotEnriched | dynamic-plugins-root/knative-extensions-plugin-knative-event-mesh-backend-dynamic-0.0.0-nightly/dist/cjs/knativeEventMeshProcessor-b7893559.cjs.js:190 | broker entities never produce relations |
| EndToEnd.OrderCreatedEntities | dynamic-plugins-root/knative-extensions-plugin-knative-event-mesh-backend-dynamic-0.0.0-nightly/dist/cjs/knativeEventMeshProcessor-b7893559.cjs.js:133-207 | one event type and one broker providing it build, in that order, an `API` entity named after the event type with the location annotation pointing at the source URL, and a `Component` entity named after the broker with `providesApis` `["api:order-created"]` |
| EndToEnd.OrderCreatedRelations | dynamic-plugins-root/knative-extensions-plugin-knative-event-mesh-backend-dynamic-0.0.0-nightly/dist/cjs/knativeEventMeshProcessor-b7893559.cjs.js:230-307 | with the `billing` component of `ns1` the only match for its consumer, the built `order-created` API entity emits exactly `apiConsumedBy` to `Component:ns1/billing` and `consumesApi` back |
| EndToEnd.OrderCreatedExample | dynamic-plugins-root/knative-extensions-plugin-knative-event-mesh-backend-dynamic-0.0.0-nightly/dist/cjs/knativeEventMeshProcessor-b7893559.cjs.js:133-307 | one event type consumed by `billing` and one broker give an API entity and a Component entity with `providesApis` `["api:order-created"]`; with the `billing` component of `ns1` in the catalog the API emits exactly the two relations with it |
| EndToEnd.MeshSlice | dynamic-plugins-root/knative-extensions-plugin-knative-event-mesh-backend-dynamic-0.0.0-nightly/dist/cjs/knativeEventMeshProcessor-b7893559.cjs.js:124-144 | the slice a successful run submits has one entry per built entity, all under the provider name, the `API` entities named after the event types first, then the `Component` entities named after the brokers |
| EndToEnd.ReconcileScenario | dynamic-plugins-root/knative-extensions-plugin-knative-event-mesh-backend-dynamic-0.0.0-nightly/dist/cjs/knativeEventMeshProcessor-b7893559.cjs.js:118-132 | the first run's slice has one entry per entity of the first mesh under the provider name, the `API` entities named after its event types, then the `Component` entities named after its brokers; after a failed fetch the slice is exactly the first run's slice; the next successful run replaces it entirely with the second mesh's entities, in order, under the same key |

## Left out

- The HTTP fetch and JSON decoding of `getEventMesh` (lines 38-44) are network I/O. `Run` takes the outcome of the fetch as a parameter instead.
- The scheduling wrapper `createScheduleFn` (lines 85-110) is scheduler and async plumbing and is not modelled. It catches and logs every error of `run`, so nothing propagates to the scheduler. In the model, the `Outcome` that `Run` returns is what it would discard.
- `Connect` only stores the connection. The source then awaits `scheduleFn()` (line 116), which hands the run to the task runner (line 88) and returns its promise. What that promise waits for depends on the runner, which is not part of this model.
- Logging is left out throughout. So is `getProcessorName`, which is the constant `ProcessorName`.
- `readKnativeEventMeshProviderConfigs` and `readKnativeEventMeshProviderConfig` (lines 6-25) are thin wrappers over the configuration API. `FromConfig` takes the list of `{id, baseUrl, schedule?}` records directly.
- The builders write the forced annotations into the upstream record's own annotation map (lines 147-148, 186-187), so each built entity shares that map object with its record. The model builds a new map and does not capture this sharing. A second build of the same snapshot reads maps the first one already rewrote. `ForcedMesh` models that snapshot, and `RebuildUnchanged` proves that the second build still gives the same entities, because forcing is idempotent (`LocationAnnotationsIdempotent`).
- `Catalog.EntityProviderConnection.ApplyMutation` always accepts a mutation. The store rejecting a submission is not modelled. Delta mutations are not modelled either, because this plugin never submits one.
- Every entity has a namespace. An entity without `spec` is modelled as one whose `spec` keys are all absent.
- The emitted `{type: "relation", relation}` envelope is reduced to the relation itself.
- Async execution and concurrency between sources are left out. Every call is sequential.
- EventMeshProcessor.KnativeEventMeshProcessor.FindComponentsByBackstageId: requires that the catalog's cursor chain ends (`LookupEnds`). For a store that hands out next cursors forever, the source loops forever, and the model says nothing about that case.
- EventMeshProcessor.KnativeEventMeshProcessor.PreProcessEntity: requires the same of every consumer's lookup (`CanEnrich`), for the same reason.
- Relation symmetry is stated per pair, not as "exactly one `consumesApi` for each `apiConsumedBy`". The code emits one mirrored pair per matched component, so a component matched twice gives two identical pairs. The model states the pairing (`Paired`) and the symmetry that follows from it (`Symmetric`).
