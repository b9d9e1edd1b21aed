/**
 * The abstract store behind `PrismaService`: a table of services and a
 * table of endpoints, each a sequence of rows in storage order.  The
 * database schema is not part of this model; the constraints it is assumed
 * to enforce are stated as the store invariant: unique service ids and
 * names, unique endpoint ids, and every endpoint pointing at an existing
 * service (which the services' cascade delete keeps true).  The invariant
 * also records that every stored tag list is already normalised, which the
 * service methods guarantee.
 */
module Storage {
  import opened Wrappers
  import opened Seqs
  import opened Tags
  import opened Ordering
  import PrismaFilter

  /** A `Service` row with its tags (the `Tag` rows, in creation order). */
  datatype ServiceRow = ServiceRow(
    id: string,
    name: string,
    description: Option<string>,
    owner: Option<string>,
    status: string,
    tags: seq<string>,
    createdAt: nat,
    updatedAt: nat)

  /** An `Endpoint` row; `httpMethod` is the `method` column. */
  datatype EndpointRow = EndpointRow(
    id: string,
    serviceId: string,
    httpMethod: string,
    path: string,
    version: string,
    slaMs: int,
    authType: string,
    createdAt: nat,
    updatedAt: nat)

  /** What the service methods throw: `NotFoundException` or a storage error code. */
  datatype ApiError = NotFoundError(message: string) | StorageError(code: string)

  /** The HTTP status a thrown error ends in: 404, or the storage filter's. */
  function ErrorStatus(e: ApiError): (status: nat)
    ensures e.NotFoundError? ==> status == PrismaFilter.NotFound
    ensures e == StorageError(PrismaFilter.UniqueViolation) ==> status == PrismaFilter.Conflict
  {
    match e
    case NotFoundError(_) => PrismaFilter.NotFound
    case StorageError(code) => PrismaFilter.Catch(code).status
  }

  /** `createdAt` ascending; read backwards (`Desc`) it is newest first. */
  function EndpointCreatedLe(a: EndpointRow, b: EndpointRow): bool { a.createdAt <= b.createdAt }

  /** `orderBy: { createdAt: 'desc' }`. */
  function NewestFirst(e: seq<EndpointRow>): (r: seq<EndpointRow>)
    ensures Sorted(r, Directed(EndpointCreatedLe, Desc))
    ensures multiset(r) == multiset(e)
  {
    DirectedPreorder(EndpointCreatedLe, Desc);
    SortBySorted(e, Directed(EndpointCreatedLe, Desc));
    SortBy(e, Directed(EndpointCreatedLe, Desc))
  }

  function ServiceId(r: ServiceRow): string { r.id }
  function ServiceName(r: ServiceRow): string { r.name }
  function EndpointId(r: EndpointRow): string { r.id }

  /** `findUnique({ where: { id } })` on the service table. */
  function FindService(s: seq<ServiceRow>, id: string): (r: Option<nat>)
    ensures r.Some? ==> r.value < |s| && s[r.value].id == id
    ensures r.None? ==> forall i :: 0 <= i < |s| ==> s[i].id != id
  {
    Find(s, (x: ServiceRow) => x.id == id)
  }

  /** The service row that already carries `name`, if any. */
  function ServiceNamed(s: seq<ServiceRow>, name: string): (r: Option<nat>)
    ensures r.Some? ==> r.value < |s| && s[r.value].name == name
    ensures r.None? ==> forall i :: 0 <= i < |s| ==> s[i].name != name
  {
    Find(s, (x: ServiceRow) => x.name == name)
  }

  /** `findUnique({ where: { id } })` on the endpoint table. */
  function FindEndpoint(e: seq<EndpointRow>, id: string): (r: Option<nat>)
    ensures r.Some? ==> r.value < |e| && e[r.value].id == id
    ensures r.None? ==> forall i :: 0 <= i < |e| ==> e[i].id != id
  {
    Find(e, (x: EndpointRow) => x.id == id)
  }

  /** `where: { serviceId }` on the endpoint table, in storage order. */
  function EndpointsOf(e: seq<EndpointRow>, serviceId: string): (r: seq<EndpointRow>)
    ensures forall x :: x in r <==> x in e && x.serviceId == serviceId
  {
    FilterMembers(e, (x: EndpointRow) => x.serviceId == serviceId);
    Filter(e, (x: EndpointRow) => x.serviceId == serviceId)
  }

  predicate HasService(s: seq<ServiceRow>, id: string) {
    exists r :: r in s && r.id == id
  }

  /** A tag list as `normalizeTags` leaves it. */
  predicate NormalizedTagList(tags: seq<string>) {
    Distinct(tags) && forall i :: 0 <= i < |tags| ==> tags[i] != "" && IsTrimmed(tags[i])
  }

  predicate TagsNormalized(s: seq<ServiceRow>) {
    forall i :: 0 <= i < |s| ==> NormalizedTagList(s[i].tags)
  }

  predicate Linked(s: seq<ServiceRow>, e: seq<EndpointRow>) {
    forall k :: 0 <= k < |e| ==> HasService(s, e[k].serviceId)
  }

  /** The store invariant. */
  predicate Consistent(s: seq<ServiceRow>, e: seq<EndpointRow>) {
    && UniqueBy(s, ServiceId)
    && UniqueBy(s, ServiceName)
    && TagsNormalized(s)
    && UniqueBy(e, EndpointId)
    && Linked(s, e)
  }

  class Store {
    var services: seq<ServiceRow>
    var endpoints: seq<EndpointRow>

    ghost predicate Valid()
      reads this
    {
      Consistent(services, endpoints)
    }

    /** An empty database. */
    constructor ()
      ensures services == [] && endpoints == []
      ensures Valid()
    {
      services := [];
      endpoints := [];
    }
  }

  // How each write keeps the invariant.

  /** Inserting a service with a new id, a new name and normalised tags. */
  lemma InsertServiceConsistent(s: seq<ServiceRow>, e: seq<EndpointRow>, row: ServiceRow)
    requires Consistent(s, e)
    requires FindService(s, row.id).None? && ServiceNamed(s, row.name).None?
    requires NormalizedTagList(row.tags)
    ensures Consistent(s + [row], e)
  {
    var s' := s + [row];
    forall k | 0 <= k < |e| ensures HasService(s', e[k].serviceId) {
      var r :| r in s && r.id == e[k].serviceId;
      assert r in s';
    }
    assert forall i :: 0 <= i < |s| ==> s'[i] == s[i];
  }

  /**
   * Rewriting service `i` in place, keeping its id and taking a name no
   * other row has.
   */
  lemma UpdateServiceConsistent(s: seq<ServiceRow>, e: seq<EndpointRow>, i: nat, row: ServiceRow)
    requires Consistent(s, e)
    requires i < |s| && row.id == s[i].id
    requires forall j :: 0 <= j < |s| && j != i ==> s[j].name != row.name
    requires NormalizedTagList(row.tags)
    ensures Consistent(s[i := row], e)
  {
    var s' := s[i := row];
    forall k | 0 <= k < |e| ensures HasService(s', e[k].serviceId) {
      var r :| r in s && r.id == e[k].serviceId;
      var j :| 0 <= j < |s| && s[j] == r;
      if j == i {
        assert s'[i] in s';
      } else {
        assert s'[j] == r;
      }
    }
  }

  /** Deleting a service together with its endpoints (the cascade). */
  lemma DeleteServiceConsistent(s: seq<ServiceRow>, e: seq<EndpointRow>, id: string)
    requires Consistent(s, e)
    ensures Consistent(Filter(s, (x: ServiceRow) => x.id != id), Filter(e, (x: EndpointRow) => x.serviceId != id))
  {
    var s' := Filter(s, (x: ServiceRow) => x.id != id);
    var e' := Filter(e, (x: EndpointRow) => x.serviceId != id);
    FilterUniqueBy(s, (x: ServiceRow) => x.id != id, ServiceId);
    FilterUniqueBy(s, (x: ServiceRow) => x.id != id, ServiceName);
    FilterUniqueBy(e, (x: EndpointRow) => x.serviceId != id, EndpointId);
    FilterMembers(s, (x: ServiceRow) => x.id != id);
    FilterMembers(e, (x: EndpointRow) => x.serviceId != id);
    forall i | 0 <= i < |s'| ensures NormalizedTagList(s'[i].tags) {
      assert s'[i] in s;
    }
    forall k | 0 <= k < |e'| ensures HasService(s', e'[k].serviceId) {
      assert e'[k] in e;
      var j :| 0 <= j < |e| && e[j] == e'[k];
      var r :| r in s && r.id == e'[k].serviceId;
      assert r in s';
    }
  }

  /** Inserting an endpoint with a new id under an existing service. */
  lemma InsertEndpointConsistent(s: seq<ServiceRow>, e: seq<EndpointRow>, row: EndpointRow)
    requires Consistent(s, e)
    requires FindEndpoint(e, row.id).None? && FindService(s, row.serviceId).Some?
    ensures Consistent(s, e + [row])
  {
    var e' := e + [row];
    assert s[FindService(s, row.serviceId).value] in s;
    forall k | 0 <= k < |e'| ensures HasService(s, e'[k].serviceId) {
      if k < |e| {
        assert e'[k] == e[k];
      }
    }
  }

  /** Rewriting endpoint `i` in place, keeping its id and its service. */
  lemma UpdateEndpointConsistent(s: seq<ServiceRow>, e: seq<EndpointRow>, i: nat, row: EndpointRow)
    requires Consistent(s, e)
    requires i < |e| && row.id == e[i].id && row.serviceId == e[i].serviceId
    ensures Consistent(s, e[i := row])
  {
    var e' := e[i := row];
    forall k | 0 <= k < |e'| ensures HasService(s, e'[k].serviceId) {
      assert e'[k].serviceId == e[k].serviceId;
    }
  }

  /** Deleting one endpoint. */
  lemma DeleteEndpointConsistent(s: seq<ServiceRow>, e: seq<EndpointRow>, id: string)
    requires Consistent(s, e)
    ensures Consistent(s, Filter(e, (x: EndpointRow) => x.id != id))
  {
    var e' := Filter(e, (x: EndpointRow) => x.id != id);
    FilterUniqueBy(e, (x: EndpointRow) => x.id != id, EndpointId);
    FilterMembers(e, (x: EndpointRow) => x.id != id);
    forall k | 0 <= k < |e'| ensures HasService(s, e'[k].serviceId) {
      assert e'[k] in e;
      var j :| 0 <= j < |e| && e[j] == e'[k];
    }
  }
}
