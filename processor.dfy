/** Relation enrichment: the catalog processor that, for an API entity of an
    event type, looks up the components of each declared consumer through the
    catalog's cursor-paged query and emits a symmetric pair of relations per
    match. */
module EventMeshProcessor {
  import opened Wrappers
  import opened Catalog
  import opened Knative

  /** The page size used when the constructor is given none. */
  const DefaultQueryEntityPageLimit: int := 10000
  const ProcessorName: string := "knative-event-mesh-processor"
  /** The `kind` value of the lookup filter (lower case, as the source has it). */
  const FilterKindComponent: string := "component"

  /** The fixed filter of a lookup: components of `namespace` whose
      kubernetes-id annotation is `componentId`. */
  function ComponentFilter(namespace: string, componentId: string): Filter
  {
    Filter(FilterKindComponent, namespace, componentId)
  }

  /** Puts `items` in front of a successful remainder; errors and exhausted
      fuel pass through. */
  function Prepend(items: seq<Entity>, r: Option<Result<seq<Entity>, string>>): Option<Result<seq<Entity>, string>>
  {
    match r
    case Some(Success(rest)) => Some(Success(items + rest))
    case _ => r
  }

  lemma PrependEmpty(r: Option<Result<seq<Entity>, string>>)
    ensures Prepend([], r) == r
  {
    match r
    case Some(Success(rest)) => assert [] + rest == rest;
    case _ =>
  }

  lemma PrependTwice(a: seq<Entity>, b: seq<Entity>, r: Option<Result<seq<Entity>, string>>)
    ensures Prepend(a, Prepend(b, r)) == Prepend(a + b, r)
  {
    match r
    case Some(Success(rest)) => assert a + (b + rest) == (a + b) + rest;
    case _ =>
  }

  /** Paging with a fixed filter and limit from `cursor` on, issuing at most
      `fuel` queries: the concatenation of the pages' items, the first error,
      or `None` when the fuel runs out before a page without a next cursor. */
  function Drain(api: CatalogApi, filter: Filter, limit: int, cursor: Option<string>, fuel: nat)
    : Option<Result<seq<Entity>, string>>
    decreases fuel
  {
    if fuel == 0 then None
    else match api(Query(filter, cursor, limit))
      case Failure(e) => Some(Failure(e))
      case Success(page) =>
        if MorePages(page.nextCursor)
        then Prepend(page.items, Drain(api, filter, limit, page.nextCursor, fuel - 1))
        else Some(Success(page.items))
  }

  /** Whether paging from the first page ends (on a last page or an error). */
  ghost predicate PagingEnds(api: CatalogApi, filter: Filter, limit: int)
  {
    exists fuel: nat :: Drain(api, filter, limit, None, fuel).Some?
  }

  /** The items of a finished paging, or nothing when it failed. */
  function OrEmpty(r: Result<seq<Entity>, string>): seq<Entity>
  {
    if r.Success? then r.value else []
  }

  /** The components a lookup returns. */
  ghost function ComponentsFound(api: CatalogApi, filter: Filter, limit: int): seq<Entity>
    requires PagingEnds(api, filter, limit)
  {
    var fuel: nat :| Drain(api, filter, limit, None, fuel).Some?;
    OrEmpty(Drain(api, filter, limit, None, fuel).value)
  }

  /** Once paging has ended, more fuel changes nothing. */
  lemma {:induction false} DrainMonotone(api: CatalogApi, filter: Filter, limit: int, cursor: Option<string>, fuel: nat, more: nat)
    requires fuel <= more
    requires Drain(api, filter, limit, cursor, fuel).Some?
    ensures Drain(api, filter, limit, cursor, more) == Drain(api, filter, limit, cursor, fuel)
    decreases fuel
  {
    match api(Query(filter, cursor, limit))
    case Failure(_) =>
    case Success(page) =>
      if MorePages(page.nextCursor) {
        DrainMonotone(api, filter, limit, page.nextCursor, fuel - 1, more - 1);
      }
  }

  /** Whatever sufficient fuel is used, the lookup's result is the same. */
  lemma ComponentsFoundByFuel(api: CatalogApi, filter: Filter, limit: int, fuel: nat)
    requires Drain(api, filter, limit, None, fuel).Some?
    ensures PagingEnds(api, filter, limit)
    ensures ComponentsFound(api, filter, limit) == OrEmpty(Drain(api, filter, limit, None, fuel).value)
  {
    forall g: nat | Drain(api, filter, limit, None, g).Some?
      ensures Drain(api, filter, limit, None, g) == Drain(api, filter, limit, None, fuel)
    {
      if g <= fuel {
        DrainMonotone(api, filter, limit, None, g, fuel);
      } else {
        DrainMonotone(api, filter, limit, None, fuel, g);
      }
    }
  }

  /** An API entity that represents a Knative event type. */
  predicate IsKnativeEventTypeApi(entity: Entity)
  {
    entity.kind == KindApi && entity.spec.specType == Some(TypeKnativeEvent)
  }

  function ApiRef(entity: Entity): EntityRef
  {
    EntityRef(KindApi, entity.metadata.namespace, entity.metadata.name)
  }

  function ComponentRef(component: Entity): EntityRef
  {
    EntityRef(KindComponent, component.metadata.namespace, component.metadata.name)
  }

  /** The two relations emitted for one matched component. */
  function ConsumerPair(api: EntityRef, component: EntityRef): seq<Relation>
  {
    [Relation(RelationApiConsumedBy, api, component), Relation(RelationConsumesApi, component, api)]
  }

  /** The relations emitted for the matched components of one consumer. */
  function RelationPairs(api: EntityRef, components: seq<Entity>): seq<Relation>
    decreases |components|
  {
    if components == [] then []
    else RelationPairs(api, components[..|components| - 1]) + ConsumerPair(api, ComponentRef(components[|components| - 1]))
  }

  /** The relations emitted for a list of consumers, given the components
      found for each of them, in order. */
  function RelationsFor(api: EntityRef, found: seq<seq<Entity>>): seq<Relation>
    decreases |found|
  {
    if found == [] then []
    else RelationsFor(api, found[..|found| - 1]) + RelationPairs(api, found[|found| - 1])
  }

  /** The total number of matched components. */
  function TotalMatches(found: seq<seq<Entity>>): nat
    decreases |found|
  {
    if found == [] then 0 else TotalMatches(found[..|found| - 1]) + |found[|found| - 1]|
  }

  /** The relation with its ends swapped and its type inverted. */
  function Mirror(r: Relation): Relation
  {
    Relation(if r.relationType == RelationApiConsumedBy then RelationConsumesApi else RelationApiConsumedBy,
             r.target, r.source)
  }

  /** Relations 2k and 2k+1 are an apiConsumedBy from `api` to a Component
      followed by its mirror. */
  predicate IsPairAt(rs: seq<Relation>, api: EntityRef, k: int)
    requires 0 <= k && 2 * k + 1 < |rs|
  {
    && rs[2 * k].relationType == RelationApiConsumedBy
    && rs[2 * k].source == api
    && rs[2 * k].target.kind == KindComponent
    && rs[2 * k + 1] == Mirror(rs[2 * k])
  }

  /** A list made of (apiConsumedBy api -> Component, its mirror) pairs. */
  predicate Paired(rs: seq<Relation>, api: EntityRef)
  {
    |rs| % 2 == 0 && forall k :: 0 <= k < |rs| / 2 ==> IsPairAt(rs, api, k)
  }

  /** Every relation of the list has its mirror in the list. */
  predicate Symmetric(rs: seq<Relation>)
  {
    forall r :: r in rs ==> Mirror(r) in rs
  }

  /** Matching one more component appends its pair. */
  lemma RelationPairsPush(api: EntityRef, components: seq<Entity>, j: nat)
    requires j < |components|
    ensures RelationPairs(api, components[..j + 1]) == RelationPairs(api, components[..j]) + ConsumerPair(api, ComponentRef(components[j]))
  {
    assert components[..j + 1][..j] == components[..j];
  }

  /** Looking up one more consumer appends its pairs. */
  lemma RelationsForPush(api: EntityRef, found: seq<seq<Entity>>, components: seq<Entity>)
    ensures RelationsFor(api, found + [components]) == RelationsFor(api, found) + RelationPairs(api, components)
  {
  }

  /** The k-th matched component yields relations 2k and 2k+1. */
  lemma {:induction false} RelationPairsAt(api: EntityRef, components: seq<Entity>)
    ensures |RelationPairs(api, components)| == 2 * |components|
    ensures forall i :: 0 <= i < |RelationPairs(api, components)| ==>
              RelationPairs(api, components)[i] ==
                if i % 2 == 0 then Relation(RelationApiConsumedBy, api, ComponentRef(components[i / 2]))
                else Relation(RelationConsumesApi, ComponentRef(components[i / 2]), api)
    decreases |components|
  {
    if components != [] {
      var init := components[..|components| - 1];
      RelationPairsAt(api, init);
      var rp := RelationPairs(api, components);
      forall i | 0 <= i < |rp|
        ensures rp[i] ==
                if i % 2 == 0 then Relation(RelationApiConsumedBy, api, ComponentRef(components[i / 2]))
                else Relation(RelationConsumesApi, ComponentRef(components[i / 2]), api)
      {
        if i < 2 * |init| {
          assert components[i / 2] == init[i / 2];
        }
      }
    }
  }

  lemma PairedAppend(a: seq<Relation>, b: seq<Relation>, api: EntityRef)
    requires Paired(a, api) && Paired(b, api)
    ensures Paired(a + b, api)
  {
    var h := |a| / 2;
    assert |a| == 2 * h;
    forall k | 0 <= k < |a + b| / 2
      ensures IsPairAt(a + b, api, k)
    {
      if k < h {
        assert IsPairAt(a, api, k);
        assert (a + b)[2 * k] == a[2 * k] && (a + b)[2 * k + 1] == a[2 * k + 1];
      } else {
        assert IsPairAt(b, api, k - h);
        assert 2 * k - |a| == 2 * (k - h);
        assert (a + b)[2 * k] == b[2 * (k - h)] && (a + b)[2 * k + 1] == b[2 * (k - h) + 1];
      }
    }
  }

  lemma RelationPairsPaired(api: EntityRef, components: seq<Entity>)
    ensures Paired(RelationPairs(api, components), api)
  {
    RelationPairsAt(api, components);
    var rp := RelationPairs(api, components);
    forall k | 0 <= k < |rp| / 2
      ensures IsPairAt(rp, api, k)
    {
      assert (2 * k) % 2 == 0 && (2 * k) / 2 == k;
      assert (2 * k + 1) % 2 == 1 && (2 * k + 1) / 2 == k;
    }
  }

  /** Whatever is found, the emitted relations come in mirrored pairs, two
      per matched component. */
  lemma {:induction false} RelationsForPaired(api: EntityRef, found: seq<seq<Entity>>)
    ensures Paired(RelationsFor(api, found), api)
    ensures |RelationsFor(api, found)| == 2 * TotalMatches(found)
    decreases |found|
  {
    if found != [] {
      RelationsForPaired(api, found[..|found| - 1]);
      RelationPairsPaired(api, found[|found| - 1]);
      RelationPairsAt(api, found[|found| - 1]);
      PairedAppend(RelationsFor(api, found[..|found| - 1]), RelationPairs(api, found[|found| - 1]), api);
    }
  }

  /** In a paired list, relation i has its mirror at the other index of
      its pair. */
  lemma PairedPartner(rs: seq<Relation>, api: EntityRef, i: int) returns (j: int)
    requires Paired(rs, api) && 0 <= i < |rs|
    ensures 0 <= j < |rs| && rs[j] == Mirror(rs[i])
  {
    var k := i / 2;
    assert IsPairAt(rs, api, k);
    if i == 2 * k {
      j := 2 * k + 1;
    } else {
      assert RelationConsumesApi != RelationApiConsumedBy by {
        assert |RelationConsumesApi| < |RelationApiConsumedBy|;
      }
      j := 2 * k;
    }
  }

  /** Pairing gives symmetry: every apiConsumedBy has its consumesApi with
      source and target swapped, and the other way round. */
  lemma PairedSymmetric(rs: seq<Relation>, api: EntityRef)
    requires Paired(rs, api)
    ensures Symmetric(rs)
  {
    forall r | r in rs
      ensures Mirror(r) in rs
    {
      var i :| 0 <= i < |rs| && rs[i] == r;
      var j := PairedPartner(rs, api, i);
    }
  }

  /** When no consumer matched any component, nothing is emitted. */
  lemma {:induction false} NoMatchesNoRelations(api: EntityRef, found: seq<seq<Entity>>)
    requires forall i :: 0 <= i < |found| ==> found[i] == []
    ensures TotalMatches(found) == 0
    ensures RelationsFor(api, found) == []
    decreases |found|
  {
    if found != [] {
      NoMatchesNoRelations(api, found[..|found| - 1]);
    }
  }

  /** The catalog processor. `catalogApi` is the catalog's paged query. */
  class KnativeEventMeshProcessor {
    const catalogApi: CatalogApi
    const queryEntityPageLimit: int

    constructor (catalogApi: CatalogApi, queryEntityPageLimit: Option<int>)
      ensures this.catalogApi == catalogApi
      ensures this.queryEntityPageLimit == queryEntityPageLimit.GetOr(DefaultQueryEntityPageLimit)
    {
      this.catalogApi := catalogApi;
      this.queryEntityPageLimit := queryEntityPageLimit.GetOr(DefaultQueryEntityPageLimit);
    }

    /** Whether the lookup of one consumer ends. */
    ghost predicate LookupEnds(namespace: string, componentId: string)
    {
      PagingEnds(catalogApi, ComponentFilter(namespace, componentId), queryEntityPageLimit)
    }

    /** The components the lookup of one consumer returns. */
    ghost function Lookup(namespace: string, componentId: string): seq<Entity>
      requires LookupEnds(namespace, componentId)
    {
      ComponentsFound(catalogApi, ComponentFilter(namespace, componentId), queryEntityPageLimit)
    }

    /** `findComponentsByBackstageId`: queries with the fixed filter and
        page limit, feeding each page's next cursor into the next query,
        until a page has none; the pages' items in order, or nothing at all
        when any query fails. */
    method FindComponentsByBackstageId(namespace: string, componentId: string) returns (components: seq<Entity>)
      requires LookupEnds(namespace, componentId)
      ensures components == Lookup(namespace, componentId)
    {
      var filter := ComponentFilter(namespace, componentId);
      ghost var fuel0: nat :| Drain(catalogApi, filter, queryEntityPageLimit, None, fuel0).Some?;
      ghost var fuel := fuel0;
      var cursor: Option<string> := None;
      var entities: seq<Entity> := [];
      PrependEmpty(Drain(catalogApi, filter, queryEntityPageLimit, None, fuel0));
      while true
        invariant Drain(catalogApi, filter, queryEntityPageLimit, cursor, fuel).Some?
        invariant Drain(catalogApi, filter, queryEntityPageLimit, None, fuel0) ==
                  Prepend(entities, Drain(catalogApi, filter, queryEntityPageLimit, cursor, fuel))
        decreases fuel
      {
        var response := catalogApi(Query(filter, cursor, queryEntityPageLimit));
        if response.Failure? {
          ComponentsFoundByFuel(catalogApi, filter, queryEntityPageLimit, fuel0);
          return [];
        }
        ghost var rest := Drain(catalogApi, filter, queryEntityPageLimit, response.value.nextCursor, fuel - 1);
        cursor := response.value.nextCursor;
        PrependTwice(entities, response.value.items, rest);
        entities := entities + response.value.items;
        if !MorePages(cursor) {
          ComponentsFoundByFuel(catalogApi, filter, queryEntityPageLimit, fuel0);
          return entities;
        }
        fuel := fuel - 1;
      }
    }

    /** What `PreProcessEntity` needs of the catalog: every lookup it makes ends. */
    ghost predicate CanEnrich(entity: Entity)
    {
      IsKnativeEventTypeApi(entity) && entity.metadata.consumedBy.Some? ==>
        forall c :: c in entity.metadata.consumedBy.value ==> LookupEnds(entity.metadata.namespace, c)
    }

    /** The components found for each consumer, in order. */
    ghost function FoundFor(namespace: string, consumers: seq<string>): (found: seq<seq<Entity>>)
      requires forall c :: c in consumers ==> LookupEnds(namespace, c)
      ensures |found| == |consumers|
      ensures forall i :: 0 <= i < |consumers| ==> found[i] == Lookup(namespace, consumers[i])
    {
      seq(|consumers|, i requires 0 <= i < |consumers| => Lookup(namespace, consumers[i]))
    }

    /** The relations `PreProcessEntity` emits for an entity. */
    ghost function EmittedFor(entity: Entity): seq<Relation>
      requires CanEnrich(entity)
    {
      if IsKnativeEventTypeApi(entity) && entity.metadata.consumedBy.Some?
      then RelationsFor(ApiRef(entity), FoundFor(entity.metadata.namespace, entity.metadata.consumedBy.value))
      else []
    }

    /** `preProcessEntity`: returns the entity unchanged; `emitted` lists, in
        order, what it passes to `emit`. */
    method PreProcessEntity(entity: Entity) returns (result: Entity, emitted: seq<Relation>)
      requires CanEnrich(entity)
      ensures result == entity
      ensures emitted == EmittedFor(entity)
    {
      result := entity;
      emitted := [];
      if entity.kind == KindApi && entity.spec.specType == Some(TypeKnativeEvent) {
        if entity.metadata.consumedBy.None? {
          return;
        }
        var consumers := entity.metadata.consumedBy.value;
        var namespace := entity.metadata.namespace;
        var api := EntityRef(KindApi, namespace, entity.metadata.name);
        for i := 0 to |consumers|
          invariant forall c :: c in consumers[..i] ==> LookupEnds(namespace, c)
          invariant emitted == RelationsFor(api, FoundFor(namespace, consumers[..i]))
        {
          var components := FindComponentsByBackstageId(namespace, consumers[i]);
          ghost var before := emitted;
          for j := 0 to |components|
            invariant emitted == before + RelationPairs(api, components[..j])
          {
            var component := components[j];
            var target := EntityRef(KindComponent, component.metadata.namespace, component.metadata.name);
            RelationPairsPush(api, components, j);
            var apiToComponent := Relation(RelationApiConsumedBy, api, target);
            emitted := emitted + [apiToComponent];
            var componentToApi := Relation(RelationConsumesApi, target, api);
            emitted := emitted + [componentToApi];
            assert emitted == before + (RelationPairs(api, components[..j]) + [apiToComponent, componentToApi]);
          }
          assert components[..|components|] == components;
          FoundForPush(this, namespace, consumers, i);
          RelationsForPush(api, FoundFor(namespace, consumers[..i]), components);
        }
        assert consumers[..|consumers|] == consumers;
      }
    }
  }

  /** Looking up one more consumer appends what its lookup finds. */
  lemma FoundForPush(p: KnativeEventMeshProcessor, namespace: string, consumers: seq<string>, i: nat)
    requires i < |consumers|
    requires forall c :: c in consumers ==> p.LookupEnds(namespace, c)
    ensures forall c :: c in consumers[..i + 1] ==> p.LookupEnds(namespace, c)
    ensures p.FoundFor(namespace, consumers[..i + 1]) == p.FoundFor(namespace, consumers[..i]) + [p.Lookup(namespace, consumers[i])]
  {
  }

  /** What one lookup contributes when the catalog has no match for it, or
      when its query fails: nothing, and no error. */
  predicate NothingFound(api: CatalogApi, filter: Filter, limit: int)
  {
    match api(Query(filter, None, limit))
    case Failure(_) => true
    case Success(page) => page.items == [] && !MorePages(page.nextCursor)
  }

  lemma NothingFoundIsEmpty(api: CatalogApi, filter: Filter, limit: int)
    requires NothingFound(api, filter, limit)
    ensures PagingEnds(api, filter, limit)
    ensures ComponentsFound(api, filter, limit) == []
  {
    ComponentsFoundByFuel(api, filter, limit, 1);
  }

  /** An error on a later page discards the items of the earlier ones. */
  lemma LaterFailureDiscardsPages(api: CatalogApi, filter: Filter, limit: int)
    requires api(Query(filter, None, limit)).Success?
    requires MorePages(api(Query(filter, None, limit)).value.nextCursor)
    requires api(Query(filter, api(Query(filter, None, limit)).value.nextCursor, limit)).Failure?
    ensures PagingEnds(api, filter, limit)
    ensures ComponentsFound(api, filter, limit) == []
  {
    ComponentsFoundByFuel(api, filter, limit, 2);
  }

  /** A chain of cursors the catalog hands out, page after page, whose last
      query fails: every query before the last succeeds and names the next
      cursor of the chain as its next cursor. */
  ghost predicate FailingChain(api: CatalogApi, filter: Filter, limit: int, cursors: seq<Option<string>>)
  {
    && |cursors| > 0
    && (forall k :: 0 <= k < |cursors| - 1 ==>
          && api(Query(filter, cursors[k], limit)).Success?
          && MorePages(api(Query(filter, cursors[k], limit)).value.nextCursor)
          && api(Query(filter, cursors[k], limit)).value.nextCursor == cursors[k + 1])
    && api(Query(filter, cursors[|cursors| - 1], limit)).Failure?
  }

  /** Paging along a failing chain ends in that failure. */
  lemma {:induction false} FailingChainFails(api: CatalogApi, filter: Filter, limit: int, cursors: seq<Option<string>>)
    requires FailingChain(api, filter, limit, cursors)
    ensures Drain(api, filter, limit, cursors[0], |cursors|).Some?
    ensures Drain(api, filter, limit, cursors[0], |cursors|).value.Failure?
    decreases |cursors|
  {
    if |cursors| > 1 {
      assert FailingChain(api, filter, limit, cursors[1..]) by {
        forall k | 0 <= k < |cursors[1..]| - 1
          ensures api(Query(filter, cursors[1..][k], limit)).Success?
          ensures MorePages(api(Query(filter, cursors[1..][k], limit)).value.nextCursor)
          ensures api(Query(filter, cursors[1..][k], limit)).value.nextCursor == cursors[1..][k + 1]
        {
          assert cursors[1..][k] == cursors[k + 1] && cursors[1..][k + 1] == cursors[k + 2];
        }
      }
      FailingChainFails(api, filter, limit, cursors[1..]);
      assert api(Query(filter, cursors[0], limit)).value.nextCursor == cursors[1..][0];
    }
  }

  /** A failing query anywhere in the chain from the first page makes the
      whole lookup return nothing, whatever the earlier pages held. */
  lemma FailureAnywhereDiscardsPages(api: CatalogApi, filter: Filter, limit: int, cursors: seq<Option<string>>)
    requires FailingChain(api, filter, limit, cursors) && cursors[0] == None
    ensures PagingEnds(api, filter, limit)
    ensures ComponentsFound(api, filter, limit) == []
  {
    FailingChainFails(api, filter, limit, cursors);
    ComponentsFoundByFuel(api, filter, limit, |cursors|);
  }

  /** The event type entity's relations: none unless it is a Knative event
      type API with a `consumedBy` list; otherwise two per matched component,
      (apiConsumedBy from the API to the component, then consumesApi back),
      so that every relation has its mirror among them. */
  lemma EmittedForSpec(p: KnativeEventMeshProcessor, entity: Entity)
    requires p.CanEnrich(entity)
    ensures !IsKnativeEventTypeApi(entity) || entity.metadata.consumedBy.None? ==> p.EmittedFor(entity) == []
    ensures Paired(p.EmittedFor(entity), ApiRef(entity))
    ensures Symmetric(p.EmittedFor(entity))
    ensures IsKnativeEventTypeApi(entity) && entity.metadata.consumedBy.Some? ==>
              |p.EmittedFor(entity)| ==
                2 * TotalMatches(p.FoundFor(entity.metadata.namespace, entity.metadata.consumedBy.value))
  {
    if IsKnativeEventTypeApi(entity) && entity.metadata.consumedBy.Some? {
      RelationsForPaired(ApiRef(entity), p.FoundFor(entity.metadata.namespace, entity.metadata.consumedBy.value));
    }
    PairedSymmetric(p.EmittedFor(entity), ApiRef(entity));
  }

  /** Consumers that match nothing, or whose lookup fails, yield no
      relations and no error. */
  lemma UnmatchedConsumersEmitNothing(p: KnativeEventMeshProcessor, entity: Entity)
    requires IsKnativeEventTypeApi(entity) && entity.metadata.consumedBy.Some?
    requires forall c :: c in entity.metadata.consumedBy.value ==>
               NothingFound(p.catalogApi, ComponentFilter(entity.metadata.namespace, c), p.queryEntityPageLimit)
    ensures p.CanEnrich(entity)
    ensures p.EmittedFor(entity) == []
  {
    var consumers := entity.metadata.consumedBy.value;
    var namespace := entity.metadata.namespace;
    forall c | c in consumers
      ensures p.LookupEnds(namespace, c) && p.Lookup(namespace, c) == []
    {
      NothingFoundIsEmpty(p.catalogApi, ComponentFilter(namespace, c), p.queryEntityPageLimit);
    }
    var found := p.FoundFor(namespace, consumers);
    NoMatchesNoRelations(ApiRef(entity), found);
    RelationsForPaired(ApiRef(entity), found);
  }

  /** A model paged store: for each filter it holds the complete,
      unpaginated answer, serves `limit` items per page and hands out as
      cursor a token whose length is the offset of the next page. */
  function OffsetToken(offset: nat): string
  {
    seq(offset, _ => '#')
  }

  function TokenOffset(cursor: Option<string>): nat
  {
    if cursor.Some? then |cursor.value| else 0
  }

  function Min(a: int, b: int): int
  {
    if a <= b then a else b
  }

  function OffsetPage(all: seq<Entity>, q: Query): Page
  {
    var start := Min(TokenOffset(q.cursor), |all|);
    var end := Min(start + (if q.limit < 0 then 0 else q.limit), |all|);
    Page(all[start..end], if end < |all| then Some(OffsetToken(end)) else None)
  }

  function OffsetCatalog(answers: Filter -> seq<Entity>): CatalogApi
  {
    (q: Query) => Success(OffsetPage(answers(q.filter), q))
  }

  function CursorAt(offset: nat): Option<string>
  {
    if offset == 0 then None else Some(OffsetToken(offset))
  }

  lemma {:induction false} OffsetDrain(answers: Filter -> seq<Entity>, filter: Filter, limit: int, start: nat, fuel: nat)
    requires limit >= 1
    requires start <= |answers(filter)|
    requires fuel >= |answers(filter)| - start + 1
    ensures Drain(OffsetCatalog(answers), filter, limit, CursorAt(start), fuel) == Some(Success(answers(filter)[start..]))
    decreases |answers(filter)| - start
  {
    var all := answers(filter);
    var page := OffsetPage(all, Query(filter, CursorAt(start), limit));
    assert TokenOffset(CursorAt(start)) == start;
    var end := Min(start + limit, |all|);
    assert page.items == all[start..end];
    assert OffsetCatalog(answers)(Query(filter, CursorAt(start), limit)) == Success(page);
    if end == |all| {
      assert all[start..end] == all[start..];
    } else {
      assert MorePages(page.nextCursor);
      assert page.nextCursor == CursorAt(end);
      OffsetDrain(answers, filter, limit, end, fuel - 1);
      assert all[start..end] + all[end..] == all[start..];
    }
  }

  /** Paging the model store returns exactly its unpaginated answer, for
      every page limit of at least one: the limit does not change the
      result. */
  lemma OffsetCatalogComplete(answers: Filter -> seq<Entity>, filter: Filter, limit: int)
    requires limit >= 1
    ensures PagingEnds(OffsetCatalog(answers), filter, limit)
    ensures ComponentsFound(OffsetCatalog(answers), filter, limit) == answers(filter)
  {
    OffsetDrain(answers, filter, limit, 0, |answers(filter)| + 1);
    ComponentsFoundByFuel(OffsetCatalog(answers), filter, limit, |answers(filter)| + 1);
  }
}
