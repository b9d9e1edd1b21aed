/**
 * `EndpointsService` (apps/api/src/endpoints/endpoints.service.ts): the
 * endpoints of one service, listed, created, updated and deleted over the
 * abstract store, each operation guarded by a not-found check.
 *
 * `pathLe` and `methodLe` are the storage engine's collation on the `path`
 * and `method` columns, assumed to be total preorders.
 */
module Endpoints {
  import opened Wrappers
  import opened Seqs
  import opened Catalog
  import opened Ordering
  import opened Storage
  import opened EndpointDto
  import opened Services

  /** The default of `sortBy` in `findByService`. */
  const DefaultEndpointSortBy: EndpointSortBy := ByCreatedAt
  /** The default of `sortOrder` in `findByService`. */
  const DefaultEndpointSortOrder: SortOrder := Desc

  /** `NotFoundException` text of the endpoint lookups. */
  function EndpointNotFoundMessage(id: string): string {
    "Endpoint " + id + " not found"
  }

  /** `orderBy: { [sortBy]: ... }` read ascending. */
  function EndpointOrder(sortBy: EndpointSortBy, pathLe: (string, string) -> bool,
                         methodLe: (string, string) -> bool): (EndpointRow, EndpointRow) -> bool {
    match sortBy
    case ByPath => (a: EndpointRow, b: EndpointRow) => pathLe(a.path, b.path)
    case ByCreatedAt => EndpointCreatedLe
    case ByMethod => (a: EndpointRow, b: EndpointRow) => methodLe(a.httpMethod, b.httpMethod)
  }

  lemma EndpointOrderPreorder(sortBy: EndpointSortBy, pathLe: (string, string) -> bool,
                              methodLe: (string, string) -> bool)
    requires TotalPreorder(pathLe) && TotalPreorder(methodLe)
    ensures TotalPreorder(EndpointOrder(sortBy, pathLe, methodLe))
  {
    var le := EndpointOrder(sortBy, pathLe, methodLe);
    forall a: EndpointRow, b: EndpointRow ensures le(a, b) || le(b, a) {
      if sortBy == ByPath {
        assert pathLe(a.path, b.path) || pathLe(b.path, a.path);
      } else if sortBy == ByMethod {
        assert methodLe(a.httpMethod, b.httpMethod) || methodLe(b.httpMethod, a.httpMethod);
      }
    }
    forall a: EndpointRow, b: EndpointRow, c: EndpointRow | le(a, b) && le(b, c) ensures le(a, c) {
      if sortBy == ByPath {
        assert pathLe(a.path, b.path) && pathLe(b.path, c.path);
      } else if sortBy == ByMethod {
        assert methodLe(a.httpMethod, b.httpMethod) && methodLe(b.httpMethod, c.httpMethod);
      }
    }
  }

  /** The order a list query asks for, `createdAt` descending by default. */
  function EndpointQueryOrder(q: ListEndpointsQueryDto, pathLe: (string, string) -> bool,
                              methodLe: (string, string) -> bool): (EndpointRow, EndpointRow) -> bool {
    Directed(EndpointOrder(q.sortBy.GetOr(DefaultEndpointSortBy), pathLe, methodLe),
             q.sortOrder.GetOr(DefaultEndpointSortOrder))
  }

  /** What `findByService` returns for an existing service. */
  function EndpointListing(e: seq<EndpointRow>, serviceId: string, q: ListEndpointsQueryDto,
                           pathLe: (string, string) -> bool, methodLe: (string, string) -> bool): seq<EndpointRow> {
    SortBy(EndpointsOf(e, serviceId), EndpointQueryOrder(q, pathLe, methodLe))
  }

  /**
   * The listing holds exactly the endpoints of the service, each as often
   * as the table does, in the order asked for.
   */
  lemma EndpointListingSpec(e: seq<EndpointRow>, serviceId: string, q: ListEndpointsQueryDto,
                            pathLe: (string, string) -> bool, methodLe: (string, string) -> bool)
    requires TotalPreorder(pathLe) && TotalPreorder(methodLe)
    ensures Sorted(EndpointListing(e, serviceId, q, pathLe, methodLe), EndpointQueryOrder(q, pathLe, methodLe))
    ensures multiset(EndpointListing(e, serviceId, q, pathLe, methodLe)) == multiset(EndpointsOf(e, serviceId))
    ensures forall x :: x in EndpointListing(e, serviceId, q, pathLe, methodLe) <==> x in e && x.serviceId == serviceId
  {
    var sortBy := q.sortBy.GetOr(DefaultEndpointSortBy);
    EndpointOrderPreorder(sortBy, pathLe, methodLe);
    DirectedPreorder(EndpointOrder(sortBy, pathLe, methodLe), q.sortOrder.GetOr(DefaultEndpointSortOrder));
    var own := EndpointsOf(e, serviceId);
    var listed := EndpointListing(e, serviceId, q, pathLe, methodLe);
    SortBySorted(own, EndpointQueryOrder(q, pathLe, methodLe));
    forall x ensures x in listed <==> x in own {
      assert x in listed <==> x in multiset(listed);
    }
  }

  /** Without `sortBy` and `sortOrder` the listing is the one `findOne` embeds: newest first. */
  lemma DefaultListingIsNewestFirst(e: seq<EndpointRow>, serviceId: string,
                                    pathLe: (string, string) -> bool, methodLe: (string, string) -> bool)
    ensures EndpointListing(e, serviceId, ListEndpointsQueryDto(None, None), pathLe, methodLe)
         == NewestFirst(EndpointsOf(e, serviceId))
  {
  }

  /** The row `endpoint.create` writes: `@default(now())` and `@updatedAt` both give `now`. */
  function CreatedEndpoint(serviceId: string, dto: CreateEndpointDto, id: string, now: nat): EndpointRow {
    EndpointRow(id, serviceId, MethodName(dto.httpMethod), dto.path, dto.version, dto.slaMs,
                AuthTypeName(dto.authType), now, now)
  }

  /** A created endpoint belongs to the service in the route and carries the body's values. */
  lemma CreatedEndpointSpec(serviceId: string, dto: CreateEndpointDto, id: string, now: nat)
    ensures var row := CreatedEndpoint(serviceId, dto, id, now);
      && row.id == id && row.serviceId == serviceId
      && ParseMethod(row.httpMethod) == Some(dto.httpMethod)
      && row.path == dto.path && row.version == dto.version && row.slaMs == dto.slaMs
      && ParseAuthType(row.authType) == Some(dto.authType)
      && row.createdAt == now && row.updatedAt == now
  {
    NamesRoundTrip(Active, dto.httpMethod, dto.authType);
  }

  /** The row `endpoint.update` writes: an absent property keeps the column. */
  function UpdatedEndpoint(row: EndpointRow, dto: UpdateEndpointDto, now: nat): EndpointRow {
    row.(
      httpMethod := if dto.httpMethod.Some? then MethodName(dto.httpMethod.value) else row.httpMethod,
      path := dto.path.GetOr(row.path),
      version := dto.version.GetOr(row.version),
      slaMs := dto.slaMs.GetOr(row.slaMs),
      authType := if dto.authType.Some? then AuthTypeName(dto.authType.value) else row.authType,
      updatedAt := now)
  }

  /** Only the supplied properties change; the id, the service and `createdAt` stay. */
  lemma UpdatedEndpointSpec(row: EndpointRow, dto: UpdateEndpointDto, now: nat)
    ensures var r := UpdatedEndpoint(row, dto, now);
      && r.id == row.id && r.serviceId == row.serviceId && r.createdAt == row.createdAt && r.updatedAt == now
      && (dto.httpMethod.None? ==> r.httpMethod == row.httpMethod)
      && (dto.httpMethod.Some? ==> ParseMethod(r.httpMethod) == dto.httpMethod)
      && (dto.path.None? ==> r.path == row.path)
      && (dto.path.Some? ==> r.path == dto.path.value)
      && (dto.version.None? ==> r.version == row.version)
      && (dto.version.Some? ==> r.version == dto.version.value)
      && (dto.slaMs.None? ==> r.slaMs == row.slaMs)
      && (dto.slaMs.Some? ==> r.slaMs == dto.slaMs.value)
      && (dto.authType.None? ==> r.authType == row.authType)
      && (dto.authType.Some? ==> ParseAuthType(r.authType) == dto.authType)
  {
    if dto.httpMethod.Some? {
      NamesRoundTrip(Active, dto.httpMethod.value, Public);
    }
    if dto.authType.Some? {
      NamesRoundTrip(Active, Get, dto.authType.value);
    }
  }

  /** An update with no property changes nothing but `updatedAt`. */
  lemma EmptyUpdateKeepsRow(row: EndpointRow, now: nat)
    ensures UpdatedEndpoint(row, UpdateEndpointDto(None, None, None, None, None), now) == row.(updatedAt := now)
  {
  }

  class EndpointsService {
    const store: Store

    constructor (store: Store)
      ensures this.store == store
    {
      this.store := store;
    }

    /** `findByService(serviceId, query)`. */
    method FindByService(serviceId: string, query: ListEndpointsQueryDto,
                         pathLe: (string, string) -> bool, methodLe: (string, string) -> bool)
      returns (r: Result<seq<EndpointRow>, ApiError>)
      ensures r.Err? <==> FindService(store.services, serviceId).None?
      ensures r.Err? ==> r.error == NotFoundError(NotFoundMessage(serviceId))
      ensures r.Ok? ==> r.value == EndpointListing(store.endpoints, serviceId, query, pathLe, methodLe)
      ensures r.Ok? && TotalPreorder(pathLe) && TotalPreorder(methodLe) ==>
        && Sorted(r.value, EndpointQueryOrder(query, pathLe, methodLe))
        && multiset(r.value) == multiset(EndpointsOf(store.endpoints, serviceId))
    {
      var service := FindService(store.services, serviceId);
      if service.None? {
        return Err(NotFoundError(NotFoundMessage(serviceId)));
      }
      var sortBy := query.sortBy.GetOr(DefaultEndpointSortBy);
      var sortOrder := query.sortOrder.GetOr(DefaultEndpointSortOrder);
      var rows := SortBy(EndpointsOf(store.endpoints, serviceId), Directed(EndpointOrder(sortBy, pathLe, methodLe), sortOrder));
      if TotalPreorder(pathLe) && TotalPreorder(methodLe) {
        EndpointListingSpec(store.endpoints, serviceId, query, pathLe, methodLe);
      }
      r := Ok(rows);
    }

    /** `create(serviceId, dto)`; `freshId` and `now` are what the database assigns. */
    method Create(serviceId: string, dto: CreateEndpointDto, freshId: string, now: nat)
      returns (r: Result<EndpointRow, ApiError>)
      requires store.Valid()
      requires FindEndpoint(store.endpoints, freshId).None?
      modifies store
      ensures store.Valid()
      ensures store.services == old(store.services)
      ensures FindService(old(store.services), serviceId).None? ==>
        r == Err(NotFoundError(NotFoundMessage(serviceId))) && store.endpoints == old(store.endpoints)
      ensures FindService(old(store.services), serviceId).Some? ==>
        && store.endpoints == old(store.endpoints) + [CreatedEndpoint(serviceId, dto, freshId, now)]
        && r == Ok(CreatedEndpoint(serviceId, dto, freshId, now))
        && r.value in EndpointsOf(store.endpoints, serviceId)
    {
      var service := FindService(store.services, serviceId);
      if service.None? {
        return Err(NotFoundError(NotFoundMessage(serviceId)));
      }
      var row := CreatedEndpoint(serviceId, dto, freshId, now);
      InsertEndpointConsistent(store.services, store.endpoints, row);
      store.endpoints := store.endpoints + [row];
      assert row in store.endpoints;
      r := Ok(row);
    }

    /** `update(id, dto)`: a partial update; `now` is the new `updatedAt`. */
    method Update(id: string, dto: UpdateEndpointDto, now: nat) returns (r: Result<EndpointRow, ApiError>)
      requires store.Valid()
      modifies store
      ensures store.Valid()
      ensures store.services == old(store.services)
      ensures FindEndpoint(old(store.endpoints), id).None? ==>
        r == Err(NotFoundError(EndpointNotFoundMessage(id))) && store.endpoints == old(store.endpoints)
      ensures FindEndpoint(old(store.endpoints), id).Some? ==>
        var i := FindEndpoint(old(store.endpoints), id).value;
        && store.endpoints == old(store.endpoints)[i := UpdatedEndpoint(old(store.endpoints)[i], dto, now)]
        && r == Ok(store.endpoints[i])
    {
      var found := FindEndpoint(store.endpoints, id);
      if found.None? {
        return Err(NotFoundError(EndpointNotFoundMessage(id)));
      }
      var i := found.value;
      var row := UpdatedEndpoint(store.endpoints[i], dto, now);
      UpdateEndpointConsistent(store.services, store.endpoints, i, row);
      store.endpoints := store.endpoints[i := row];
      r := Ok(row);
    }

    /** `remove(id)`: deletes that one endpoint. */
    method Remove(id: string) returns (r: Result<Deleted, ApiError>)
      requires store.Valid()
      modifies store
      ensures store.Valid()
      ensures store.services == old(store.services)
      ensures FindEndpoint(old(store.endpoints), id).None? ==>
        r == Err(NotFoundError(EndpointNotFoundMessage(id))) && store.endpoints == old(store.endpoints)
      ensures FindEndpoint(old(store.endpoints), id).Some? ==>
        var i := FindEndpoint(old(store.endpoints), id).value;
        && r == Ok(Deleted("Endpoint deleted", id))
        && store.endpoints == old(store.endpoints)[..i] + old(store.endpoints)[i + 1..]
      ensures FindEndpoint(store.endpoints, id).None?
    {
      var found := FindEndpoint(store.endpoints, id);
      if found.None? {
        return Err(NotFoundError(EndpointNotFoundMessage(id)));
      }
      var i := found.value;
      var e := store.endpoints;
      DeleteEndpointConsistent(store.services, e, id);
      EndpointIdOnlyAt(e, i);
      FilterRemovesOne(e, (x: EndpointRow) => x.id != id, i);
      store.endpoints := e[..i] + e[i + 1..];
      r := Ok(Deleted("Endpoint deleted", id));
      EndpointRemovedIsGone(e, i);
    }
  }

  /** With unique ids, row `i` is the only one carrying its id. */
  lemma EndpointIdOnlyAt(e: seq<EndpointRow>, i: nat)
    requires UniqueBy(e, EndpointId) && i < |e|
    ensures forall j :: 0 <= j < |e| && j != i ==> e[j].id != e[i].id
  {
    forall j | 0 <= j < |e| && j != i ensures e[j].id != e[i].id {
      if j < i {
        assert EndpointId(e[j]) != EndpointId(e[i]);
      } else {
        assert EndpointId(e[i]) != EndpointId(e[j]);
      }
    }
  }

  /** A removed endpoint is gone: a later lookup of its id finds nothing. */
  lemma EndpointRemovedIsGone(e: seq<EndpointRow>, i: nat)
    requires UniqueBy(e, EndpointId) && i < |e|
    ensures FindEndpoint(e[..i] + e[i + 1..], e[i].id).None?
  {
    EndpointIdOnlyAt(e, i);
    var t := e[..i] + e[i + 1..];
    forall k | 0 <= k < |t| ensures t[k].id != e[i].id {
      if k < i {
        assert t[k] == e[k];
      } else {
        assert t[k] == e[k + 1];
      }
    }
  }
}
