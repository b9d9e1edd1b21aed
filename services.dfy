/**
 * `ServicesService` (apps/api/src/services/services.service.ts): creating,
 * listing, reading, updating and deleting services over the abstract store,
 * and the list and detail shapes it returns.
 *
 * String comparison is engine-defined: `contains(haystack, needle)` is the
 * storage engine's substring test and `nameLe` its collation on names,
 * assumed to be a total preorder.
 */
module Services {
  import opened Wrappers
  import opened Seqs
  import opened Catalog
  import opened Ordering
  import opened Tags
  import opened Storage
  import opened ServiceDto
  import PrismaFilter

  /** The shape of `mapListRecord`. */
  datatype ServiceListItem = ServiceListItem(
    id: string,
    name: string,
    description: Option<string>,
    owner: Option<string>,
    status: string,
    tags: seq<string>,
    endpointsCount: nat,
    createdAt: nat,
    updatedAt: nat)

  /** The shape of `mapDetailRecord`. */
  datatype ServiceDetail = ServiceDetail(
    id: string,
    name: string,
    description: Option<string>,
    owner: Option<string>,
    status: string,
    tags: seq<string>,
    endpoints: seq<EndpointRow>,
    createdAt: nat,
    updatedAt: nat)

  datatype PageMeta = PageMeta(page: int, limit: int, total: nat, totalPages: nat)

  /** The body `findAll` returns: `{ data, meta }`. */
  datatype ServicePage = ServicePage(data: seq<ServiceListItem>, meta: PageMeta)

  /** The body `remove` returns. */
  datatype Deleted = Deleted(message: string, id: string)

  const DefaultSortBy: ServiceSortBy := ByCreatedAt
  const DefaultSortOrder: SortOrder := Desc

  function NotFoundMessage(id: string): string { "Service " + id + " not found" }

  /** `mapListRecord`: the row, its tag values and the number of its endpoints. */
  function ToListItem(row: ServiceRow, endpoints: seq<EndpointRow>): ServiceListItem {
    ServiceListItem(row.id, row.name, row.description, row.owner, row.status, row.tags,
      |EndpointsOf(endpoints, row.id)|, row.createdAt, row.updatedAt)
  }

  /** `mapDetailRecord`: the row, its tag values and the endpoints included with it. */
  function ToDetail(row: ServiceRow, endpoints: seq<EndpointRow>): ServiceDetail {
    ServiceDetail(row.id, row.name, row.description, row.owner, row.status, row.tags,
      endpoints, row.createdAt, row.updatedAt)
  }

  /**
   * The two shapes agree on every field they share, and the list item's
   * `endpointsCount` is the number of endpoints the detail lists.
   */
  lemma ProjectionsAgree(row: ServiceRow, endpoints: seq<EndpointRow>)
    ensures var item, detail := ToListItem(row, endpoints), ToDetail(row, NewestFirst(EndpointsOf(endpoints, row.id)));
      && item.id == detail.id == row.id && item.name == detail.name == row.name
      && item.description == detail.description && item.owner == detail.owner
      && item.status == detail.status && item.tags == detail.tags == row.tags
      && item.createdAt == detail.createdAt && item.updatedAt == detail.updatedAt
      && item.endpointsCount == |detail.endpoints|
      && forall x :: x in detail.endpoints <==> x in endpoints && x.serviceId == row.id
  {
    var own := EndpointsOf(endpoints, row.id);
    assert |multiset(NewestFirst(own))| == |multiset(own)|;
    forall x ensures x in NewestFirst(own) <==> x in own {
      assert x in NewestFirst(own) <==> x in multiset(NewestFirst(own));
    }
  }

  // ---------------------------------------------------------------------
  // Listing: filters, order and pagination.

  /** A JavaScript truthiness test on an optional string. */
  predicate Truthy(s: Option<string>) { s.Some? && s.value != "" }

  /**
   * The filters of a list query, conjunctively: a non-empty `search` in the
   * name or the description, the `status`, and a non-empty `tag` among the
   * service's tags.
   */
  predicate ServiceMatches(q: ListServicesQueryDto, row: ServiceRow, contains: (string, string) -> bool) {
    && (Truthy(q.search) ==>
          contains(row.name, q.search.value)
          || (row.description.Some? && contains(row.description.value, q.search.value)))
    && (q.status.Some? ==> row.status == StatusName(q.status.value))
    && (Truthy(q.tag) ==> q.tag.value in row.tags)
  }

  function MatchesQuery(q: ListServicesQueryDto, contains: (string, string) -> bool): ServiceRow -> bool {
    (x: ServiceRow) => ServiceMatches(q, x, contains)
  }

  /** The services a list query selects, in storage order. */
  function Matching(s: seq<ServiceRow>, q: ListServicesQueryDto, contains: (string, string) -> bool): seq<ServiceRow> {
    Filter(s, MatchesQuery(q, contains))
  }

  lemma MatchingMembers(s: seq<ServiceRow>, q: ListServicesQueryDto, contains: (string, string) -> bool)
    ensures forall x :: x in Matching(s, q, contains) <==> x in s && ServiceMatches(q, x, contains)
  {
    FilterMembers(s, MatchesQuery(q, contains));
  }

  /** `Prisma.ServiceWhereInput` as `findAll` builds it. */
  datatype ServiceWhere = ServiceWhere(search: Option<string>, status: Option<string>, tag: Option<string>)

  /** A row satisfies a `where`: `OR` on name and description, `status`, `tags.some`. */
  predicate WhereHolds(w: ServiceWhere, row: ServiceRow, contains: (string, string) -> bool) {
    && (w.search.Some? ==>
          contains(row.name, w.search.value)
          || (row.description.Some? && contains(row.description.value, w.search.value)))
    && (w.status.Some? ==> row.status == w.status.value)
    && (w.tag.Some? ==> w.tag.value in row.tags)
  }

  function WhereFilter(w: ServiceWhere, contains: (string, string) -> bool): ServiceRow -> bool {
    (x: ServiceRow) => WhereHolds(w, x, contains)
  }

  /** `orderBy: { [sortBy]: 'asc' }`. */
  function ServiceOrder(sortBy: ServiceSortBy, nameLe: (string, string) -> bool): (ServiceRow, ServiceRow) -> bool {
    match sortBy
    case ByName => (a: ServiceRow, b: ServiceRow) => nameLe(a.name, b.name)
    case ByCreatedAt => (a: ServiceRow, b: ServiceRow) => a.createdAt <= b.createdAt
  }

  lemma ServiceOrderPreorder(sortBy: ServiceSortBy, nameLe: (string, string) -> bool)
    requires TotalPreorder(nameLe)
    ensures TotalPreorder(ServiceOrder(sortBy, nameLe))
  {
    var le := ServiceOrder(sortBy, nameLe);
    forall a: ServiceRow, b: ServiceRow ensures le(a, b) || le(b, a) {
      if sortBy == ByName {
        assert nameLe(a.name, b.name) || nameLe(b.name, a.name);
      }
    }
    forall a: ServiceRow, b: ServiceRow, c: ServiceRow | le(a, b) && le(b, c) ensures le(a, c) {
      if sortBy == ByName {
        assert nameLe(a.name, b.name) && nameLe(b.name, c.name);
      }
    }
  }

  /** The order a list query asks for, `createdAt` descending by default. */
  function QueryOrder(q: ListServicesQueryDto, nameLe: (string, string) -> bool): (ServiceRow, ServiceRow) -> bool {
    Directed(ServiceOrder(q.sortBy.GetOr(DefaultSortBy), nameLe), q.sortOrder.GetOr(DefaultSortOrder))
  }

  /** The selected services in the order asked for, before pagination. */
  function Ordered(s: seq<ServiceRow>, q: ListServicesQueryDto, contains: (string, string) -> bool,
                   nameLe: (string, string) -> bool): seq<ServiceRow> {
    SortBy(Matching(s, q, contains), QueryOrder(q, nameLe))
  }

  /** A selected service list ordered as asked, holding each selected row as often as the table does. */
  lemma OrderedSpec(s: seq<ServiceRow>, q: ListServicesQueryDto, contains: (string, string) -> bool,
                    nameLe: (string, string) -> bool)
    requires TotalPreorder(nameLe)
    ensures Sorted(Ordered(s, q, contains, nameLe), QueryOrder(q, nameLe))
    ensures multiset(Ordered(s, q, contains, nameLe)) == multiset(Matching(s, q, contains))
  {
    ServiceOrderPreorder(q.sortBy.GetOr(DefaultSortBy), nameLe);
    DirectedPreorder(ServiceOrder(q.sortBy.GetOr(DefaultSortBy), nameLe), q.sortOrder.GetOr(DefaultSortOrder));
    SortBySorted(Matching(s, q, contains), QueryOrder(q, nameLe));
  }

  /** `page` and `limit` as the validation pipe lets them through. */
  predicate PageParamsOk(q: ListServicesQueryDto) {
    (q.page.None? || q.page.value >= 1) && (q.limit.None? || q.limit.value >= 1)
  }

  function PageOf(q: ListServicesQueryDto): (page: nat)
    requires PageParamsOk(q)
    ensures page >= 1
  {
    q.page.GetOr(DefaultPage)
  }

  function LimitOf(q: ListServicesQueryDto): (limit: nat)
    requires PageParamsOk(q)
    ensures limit >= 1
  {
    q.limit.GetOr(DefaultLimit)
  }

  /** `skip: (page - 1) * limit`. */
  function Skip(page: nat, limit: nat): nat
    requires page >= 1
  {
    (page - 1) * limit
  }

  /**
   * `Math.max(1, Math.ceil(total / limit))`: the fewest pages of `limit`
   * rows that hold `total` rows, and never fewer than one.
   */
  function TotalPages(total: nat, limit: nat): (n: nat)
    requires limit >= 1
    ensures n >= 1
    ensures total <= n * limit
    ensures n == 1 || (n - 1) * limit < total
  {
    var q := total / limit;
    var c := if q * limit == total then q else q + 1;
    assert q * limit <= total < (q + 1) * limit;
    if c < 1 then 1 else c
  }

  function ListItems(rows: seq<ServiceRow>, endpoints: seq<EndpointRow>): (items: seq<ServiceListItem>)
    ensures |items| == |rows|
    ensures forall k :: 0 <= k < |rows| ==> items[k] == ToListItem(rows[k], endpoints)
  {
    seq(|rows|, k requires 0 <= k < |rows| => ToListItem(rows[k], endpoints))
  }

  /** The specification of `findAll`. */
  function ListPage(s: seq<ServiceRow>, e: seq<EndpointRow>, q: ListServicesQueryDto,
                    contains: (string, string) -> bool, nameLe: (string, string) -> bool): ServicePage
    requires PageParamsOk(q)
  {
    var page, limit := PageOf(q), LimitOf(q);
    var total := |Matching(s, q, contains)|;
    ServicePage(
      ListItems(Window(Ordered(s, q, contains, nameLe), Skip(page, limit), limit), e),
      PageMeta(page, limit, total, TotalPages(total, limit)))
  }

  /** Every listed service satisfies every supplied filter. */
  lemma ListedMatch(s: seq<ServiceRow>, e: seq<EndpointRow>, q: ListServicesQueryDto,
                    contains: (string, string) -> bool, nameLe: (string, string) -> bool)
    requires PageParamsOk(q)
    ensures forall item :: item in ListPage(s, e, q, contains, nameLe).data ==>
      exists row :: row in s && ServiceMatches(q, row, contains) && item == ToListItem(row, e)
  {
    var data := ListPage(s, e, q, contains, nameLe).data;
    forall item | item in data
      ensures exists row :: row in s && ServiceMatches(q, row, contains) && item == ToListItem(row, e)
    {
      var k :| 0 <= k < |data| && data[k] == item;
      var row := ListedItemMatches(s, e, q, contains, nameLe, k);
    }
  }

  /** Item `k` of a page is a selected row. */
  lemma ListedItemMatches(s: seq<ServiceRow>, e: seq<EndpointRow>, q: ListServicesQueryDto,
                          contains: (string, string) -> bool, nameLe: (string, string) -> bool, k: nat)
    returns (row: ServiceRow)
    requires PageParamsOk(q) && k < |ListPage(s, e, q, contains, nameLe).data|
    ensures row in s && ServiceMatches(q, row, contains)
    ensures ListPage(s, e, q, contains, nameLe).data[k] == ToListItem(row, e)
  {
    var o := Ordered(s, q, contains, nameLe);
    var skip := Skip(PageOf(q), LimitOf(q));
    ListedWindow(s, e, q, contains, nameLe);
    row := o[skip + k];
    assert row in multiset(Matching(s, q, contains)) by {
      assert row in multiset(o);
    }
    MatchingMembers(s, q, contains);
    assert row in s && ServiceMatches(q, row, contains);
  }

  /**
   * The page holds the rows of the ordered selection from position
   * `(page - 1) * limit` on, at most `limit` of them, and exactly `limit`
   * when the selection reaches past the end of the page.
   */
  lemma ListedWindow(s: seq<ServiceRow>, e: seq<EndpointRow>, q: ListServicesQueryDto,
                     contains: (string, string) -> bool, nameLe: (string, string) -> bool)
    requires PageParamsOk(q)
    ensures var p, o, skip := ListPage(s, e, q, contains, nameLe), Ordered(s, q, contains, nameLe), Skip(PageOf(q), LimitOf(q));
      && |p.data| <= LimitOf(q)
      && (skip + LimitOf(q) <= p.meta.total ==> |p.data| == LimitOf(q))
      && (skip < p.meta.total < skip + LimitOf(q) ==> |p.data| == p.meta.total - skip)
      && (skip >= p.meta.total ==> p.data == [])
      && forall k :: 0 <= k < |p.data| ==> skip + k < |o| && p.data[k] == ToListItem(o[skip + k], e)
    ensures ListPage(s, e, q, contains, nameLe).meta
      == PageMeta(PageOf(q), LimitOf(q), |Ordered(s, q, contains, nameLe)|,
                  TotalPages(|Ordered(s, q, contains, nameLe)|, LimitOf(q)))
  {
    assert |Ordered(s, q, contains, nameLe)| == |Matching(s, q, contains)|;
  }

  /** Two queries that differ only in pagination and order select the same rows. */
  lemma SameFilters(s: seq<ServiceRow>, q1: ListServicesQueryDto, q2: ListServicesQueryDto,
                    contains: (string, string) -> bool)
    requires q1.search == q2.search && q1.status == q2.status && q1.tag == q2.tag
    ensures Matching(s, q1, contains) == Matching(s, q2, contains)
  {
    FilterCongruent(s, MatchesQuery(q1, contains), MatchesQuery(q2, contains));
  }

  /** `meta.total` counts every selected service, whatever the page, limit and order. */
  lemma TotalIgnoresPaging(s: seq<ServiceRow>, e: seq<EndpointRow>, q1: ListServicesQueryDto,
                           q2: ListServicesQueryDto, contains: (string, string) -> bool,
                           nameLe: (string, string) -> bool)
    requires PageParamsOk(q1) && PageParamsOk(q2)
    requires q1.search == q2.search && q1.status == q2.status && q1.tag == q2.tag
    ensures ListPage(s, e, q1, contains, nameLe).meta.total == ListPage(s, e, q2, contains, nameLe).meta.total
    ensures ListPage(s, e, q1, contains, nameLe).meta.total == |Matching(s, q1, contains)|
  {
    SameFilters(s, q1, q2, contains);
  }

  /** Position `j` is item `j % limit` of page `j / limit + 1`. */
  lemma PagePosition(j: nat, limit: nat, n: nat, k: nat)
    requires limit >= 1 && n == j / limit + 1 && k == j % limit
    ensures n >= 1 && Skip(n, limit) + k == j && k < limit
  {
  }

  /** Item `k` of page `n` is the row at position `(n - 1) * limit + k` of the ordered selection. */
  lemma PageItem(s: seq<ServiceRow>, e: seq<EndpointRow>, q: ListServicesQueryDto,
                 contains: (string, string) -> bool, nameLe: (string, string) -> bool, n: nat, k: nat)
    requires PageParamsOk(q) && n >= 1 && k < LimitOf(q)
    requires Skip(n, LimitOf(q)) + k < |Ordered(s, q, contains, nameLe)|
    ensures var q' := q.(page := Some(n));
      PageParamsOk(q')
      && k < |ListPage(s, e, q', contains, nameLe).data|
      && ListPage(s, e, q', contains, nameLe).data[k] == ToListItem(Ordered(s, q, contains, nameLe)[Skip(n, LimitOf(q)) + k], e)
  {
    var q' := q.(page := Some(n));
    SameFilters(s, q, q', contains);
    assert Ordered(s, q', contains, nameLe) == Ordered(s, q, contains, nameLe);
    ListedWindow(s, e, q', contains, nameLe);
  }

  /**
   * Paging covers the selection: the row at position `j` of the ordered
   * selection is item `k = j % limit` of page `n = j / limit + 1`.
   */
  lemma RowOnItsPage(s: seq<ServiceRow>, e: seq<EndpointRow>, q: ListServicesQueryDto,
                     contains: (string, string) -> bool, nameLe: (string, string) -> bool, j: nat, n: nat, k: nat)
    requires PageParamsOk(q) && j < |Ordered(s, q, contains, nameLe)|
    requires n == j / LimitOf(q) + 1 && k == j % LimitOf(q)
    ensures PageParamsOk(q.(page := Some(n)))
    ensures k < |ListPage(s, e, q.(page := Some(n)), contains, nameLe).data|
    ensures ListPage(s, e, q.(page := Some(n)), contains, nameLe).data[k] == ToListItem(Ordered(s, q, contains, nameLe)[j], e)
  {
    PagePosition(j, LimitOf(q), n, k);
    PageItem(s, e, q, contains, nameLe, n, k);
  }

  /**
   * Without `page`, `limit`, `sortBy` and `sortOrder` the first ten selected
   * services are listed, newest first.
   */
  lemma ListDefaults(s: seq<ServiceRow>, e: seq<EndpointRow>, q: ListServicesQueryDto,
                     contains: (string, string) -> bool, nameLe: (string, string) -> bool)
    requires q.page.None? && q.limit.None? && q.sortBy.None? && q.sortOrder.None?
    requires TotalPreorder(nameLe)
    ensures ListPage(s, e, q, contains, nameLe).meta.page == 1
    ensures ListPage(s, e, q, contains, nameLe).meta.limit == 10
    ensures |ListPage(s, e, q, contains, nameLe).data| <= 10
    ensures Sorted(Ordered(s, q, contains, nameLe), (a: ServiceRow, b: ServiceRow) => b.createdAt <= a.createdAt)
  {
    OrderedSpec(s, q, contains, nameLe);
    ListedWindow(s, e, q, contains, nameLe);
  }

  // ---------------------------------------------------------------------
  // Writes.

  /** The row `create` inserts: status `active` unless given, tags normalised. */
  function CreatedRow(dto: CreateServiceDto, id: string, now: nat): ServiceRow {
    ServiceRow(id, dto.name, dto.description, dto.owner, StatusName(dto.status.GetOr(Active)),
      NormalizeTags(dto.tags), now, now)
  }

  /**
   * The created row copies the name, description and owner, has status
   * `active` when none is given, and stores `normalizeTags(dto.tags)`.
   */
  lemma CreatedRowSpec(dto: CreateServiceDto, id: string, now: nat)
    ensures var row := CreatedRow(dto, id, now);
      && row.id == id && row.name == dto.name
      && row.description == dto.description && row.owner == dto.owner
      && (dto.status.None? ==> row.status == "active")
      && (dto.status.Some? ==> row.status == StatusName(dto.status.value))
      && row.status in ServiceStatusNames
      && row.tags == NormalizeTags(dto.tags) && NormalizedTagList(row.tags)
      && (dto.tags.None? ==> row.tags == [])
      && row.createdAt == now && row.updatedAt == now
  {
    NormalizeTagsSpec(dto.tags);
    var t := NormalizeTags(dto.tags);
    assert forall i :: 0 <= i < |t| ==> t[i] in t;
  }

  /** The end-to-end create payload's tags are stored as sent. */
  lemma CreatedRowExample(dto: CreateServiceDto, id: string, now: nat)
    requires dto.status == Some(Active) && dto.tags == Some(["catalog", "test"])
    ensures CreatedRow(dto, id, now).tags == ["catalog", "test"]
    ensures CreatedRow(dto, id, now).status == "active"
  {
    NormalizeTagsCleanInput();
  }

  /**
   * The row `update` writes: every field the DTO omits keeps its value, a
   * supplied `tags` (even `[]`) replaces the whole list by its
   * normalisation, and `updatedAt` becomes `now`.
   */
  function UpdatedRow(row: ServiceRow, dto: UpdateServiceDto, now: nat): ServiceRow {
    row.(
      name := dto.name.GetOr(row.name),
      description := if dto.description.Some? then dto.description else row.description,
      owner := if dto.owner.Some? then dto.owner else row.owner,
      status := if dto.status.Some? then StatusName(dto.status.value) else row.status,
      tags := if dto.tags.Some? then NormalizeTags(dto.tags) else row.tags,
      updatedAt := now)
  }

  lemma UpdatedRowSpec(row: ServiceRow, dto: UpdateServiceDto, now: nat)
    requires NormalizedTagList(row.tags)
    ensures var r := UpdatedRow(row, dto, now);
      && r.id == row.id && r.createdAt == row.createdAt && r.updatedAt == now
      && (dto.name.None? ==> r.name == row.name)
      && (dto.name.Some? ==> r.name == dto.name.value)
      && (dto.description.None? ==> r.description == row.description)
      && (dto.description.Some? ==> r.description == dto.description)
      && (dto.owner.None? ==> r.owner == row.owner)
      && (dto.owner.Some? ==> r.owner == dto.owner)
      && (dto.status.None? ==> r.status == row.status)
      && (dto.status.Some? ==> r.status == StatusName(dto.status.value))
      && (dto.tags.None? ==> r.tags == row.tags)
      && (dto.tags.Some? ==> r.tags == NormalizeTags(dto.tags))
      && (dto.tags == Some([]) ==> r.tags == [])
      && NormalizedTagList(r.tags)
  {
    if dto.tags.Some? {
      NormalizeTagsSpec(dto.tags);
      var t := NormalizeTags(dto.tags);
      assert forall i :: 0 <= i < |t| ==> t[i] in t;
    }
  }

  /** Another row than `i` already carries the name the update asks for. */
  predicate NameClash(s: seq<ServiceRow>, i: nat, name: Option<string>) {
    name.Some? && ServiceNamed(s, name.value).Some? && ServiceNamed(s, name.value).value != i
  }

  /** No endpoint can point at an id no service has. */
  lemma NoEndpointsForUnknownService(s: seq<ServiceRow>, e: seq<EndpointRow>, id: string)
    requires Consistent(s, e) && FindService(s, id).None?
    ensures EndpointsOf(e, id) == []
  {
    forall k | 0 <= k < |e| ensures e[k].serviceId != id {
      var r :| r in s && r.id == e[k].serviceId;
      var j :| 0 <= j < |s| && s[j] == r;
    }
    FilterOfNone(e, (x: EndpointRow) => x.serviceId == id);
  }

  /** The `where` `findAll` builds selects exactly the rows the query's filters describe. */
  lemma WhereAgrees(w: ServiceWhere, q: ListServicesQueryDto, contains: (string, string) -> bool)
    requires w.search == (if Truthy(q.search) then q.search else None)
    requires w.status == (if q.status.Some? then Some(StatusName(q.status.value)) else None)
    requires w.tag == (if Truthy(q.tag) then q.tag else None)
    ensures forall x :: WhereFilter(w, contains)(x) == MatchesQuery(q, contains)(x)
  {
    forall x ensures WhereHolds(w, x, contains) == ServiceMatches(q, x, contains) {
    }
  }

  class ServicesService {
    const store: Store

    constructor (store: Store)
      ensures this.store == store
    {
      this.store := store;
    }

    /** `create(dto)`; `freshId` and `now` are the id and the time the database assigns. */
    method Create(dto: CreateServiceDto, freshId: string, now: nat) returns (r: Result<ServiceDetail, ApiError>)
      requires store.Valid()
      requires FindService(store.services, freshId).None?
      modifies store
      ensures store.Valid()
      ensures store.endpoints == old(store.endpoints)
      ensures ServiceNamed(old(store.services), dto.name).Some? ==>
        r == Err(StorageError(PrismaFilter.UniqueViolation)) && store.services == old(store.services)
      ensures ServiceNamed(old(store.services), dto.name).None? ==>
        && store.services == old(store.services) + [CreatedRow(dto, freshId, now)]
        && r == Ok(ToDetail(CreatedRow(dto, freshId, now), []))
    {
      if ServiceNamed(store.services, dto.name).Some? {
        return Err(StorageError(PrismaFilter.UniqueViolation));
      }
      var row := CreatedRow(dto, freshId, now);
      CreatedRowSpec(dto, freshId, now);
      InsertServiceConsistent(store.services, store.endpoints, row);
      NoEndpointsForUnknownService(store.services, store.endpoints, freshId);
      store.services := store.services + [row];
      r := Ok(ToDetail(row, []));
    }

    /**
     * `findAll(query)`: builds the `where` filter field by field, then
     * selects, orders and pages.
     */
    method FindAll(query: ListServicesQueryDto, contains: (string, string) -> bool,
                   nameLe: (string, string) -> bool) returns (result: ServicePage)
      requires PageParamsOk(query)
      ensures result == ListPage(store.services, store.endpoints, query, contains, nameLe)
    {
      var page := PageOf(query);
      var limit := LimitOf(query);
      var where := ServiceWhere(None, None, None);
      if query.search.Some? && query.search.value != "" {
        where := where.(search := query.search);
      }
      if query.status.Some? {
        where := where.(status := Some(StatusName(query.status.value)));
      }
      if query.tag.Some? && query.tag.value != "" {
        where := where.(tag := query.tag);
      }
      assert where == ServiceWhere(
        if Truthy(query.search) then query.search else None,
        if query.status.Some? then Some(StatusName(query.status.value)) else None,
        if Truthy(query.tag) then query.tag else None);
      var sortBy := query.sortBy.GetOr(DefaultSortBy);
      var sortOrder := query.sortOrder.GetOr(DefaultSortOrder);

      WhereAgrees(where, query, contains);
      FilterCongruent(store.services, WhereFilter(where, contains), MatchesQuery(query, contains));
      var selected := Filter(store.services, WhereFilter(where, contains));
      assert selected == Matching(store.services, query, contains);
      var total := |selected|;
      var ordered := SortBy(selected, Directed(ServiceOrder(sortBy, nameLe), sortOrder));
      assert ordered == Ordered(store.services, query, contains, nameLe);
      var items := Window(ordered, Skip(page, limit), limit);
      result := ServicePage(ListItems(items, store.endpoints), PageMeta(page, limit, total, TotalPages(total, limit)));
      assert result == ListPage(store.services, store.endpoints, query, contains, nameLe);
    }

    /** `findOne(id)`: the service with its endpoints, newest first. */
    method FindOne(id: string) returns (r: Result<ServiceDetail, ApiError>)
      ensures r.Err? <==> FindService(store.services, id).None?
      ensures r.Err? ==> r.error == NotFoundError(NotFoundMessage(id))
      ensures r.Ok? ==> r.value == ToDetail(store.services[FindService(store.services, id).value],
                                            NewestFirst(EndpointsOf(store.endpoints, id)))
      ensures r.Ok? ==> r.value.id == id
      ensures r.Ok? ==> Sorted(r.value.endpoints, Directed(EndpointCreatedLe, Desc))
      ensures r.Ok? ==> forall x :: x in r.value.endpoints <==> x in store.endpoints && x.serviceId == id
    {
      var found := FindService(store.services, id);
      if found.None? {
        return Err(NotFoundError(NotFoundMessage(id)));
      }
      var own := EndpointsOf(store.endpoints, id);
      var sorted := NewestFirst(own);
      forall x ensures x in sorted <==> x in own {
        assert x in sorted <==> x in multiset(sorted);
      }
      r := Ok(ToDetail(store.services[found.value], sorted));
    }

    /** `update(id, dto)`: a partial update; `now` is the new `updatedAt`. */
    method Update(id: string, dto: UpdateServiceDto, now: nat) returns (r: Result<ServiceDetail, ApiError>)
      requires store.Valid()
      modifies store
      ensures store.Valid()
      ensures store.endpoints == old(store.endpoints)
      ensures FindService(old(store.services), id).None? ==>
        r == Err(NotFoundError(NotFoundMessage(id))) && store.services == old(store.services)
      ensures FindService(old(store.services), id).Some? ==>
        var i := FindService(old(store.services), id).value;
        if NameClash(old(store.services), i, dto.name) then
          r == Err(StorageError(PrismaFilter.UniqueViolation)) && store.services == old(store.services)
        else
          && store.services == old(store.services)[i := UpdatedRow(old(store.services)[i], dto, now)]
          && r == Ok(ToDetail(store.services[i], EndpointsOf(store.endpoints, id)))
    {
      var found := FindService(store.services, id);
      if found.None? {
        return Err(NotFoundError(NotFoundMessage(id)));
      }
      var i := found.value;
      if NameClash(store.services, i, dto.name) {
        return Err(StorageError(PrismaFilter.UniqueViolation));
      }
      var row := UpdatedRow(store.services[i], dto, now);
      UpdatedRowSpec(store.services[i], dto, now);
      var s := store.services;
      if dto.name.Some? {
        var other := ServiceNamed(s, dto.name.value);
        forall j | 0 <= j < |s| && j != i ensures s[j].name != row.name {
          if other.Some? {
            assert other.value == i && s[i].name == row.name;
            if j < i {
              assert ServiceName(s[j]) != ServiceName(s[i]);
            } else {
              assert ServiceName(s[i]) != ServiceName(s[j]);
            }
          }
        }
      } else {
        forall j | 0 <= j < |s| && j != i ensures s[j].name != row.name {
          if j < i {
            assert ServiceName(s[j]) != ServiceName(s[i]);
          } else {
            assert ServiceName(s[i]) != ServiceName(s[j]);
          }
        }
      }
      UpdateServiceConsistent(store.services, store.endpoints, i, row);
      store.services := store.services[i := row];
      r := Ok(ToDetail(row, EndpointsOf(store.endpoints, id)));
    }

    /** `remove(id)`: deletes the service; its endpoints go with it. */
    method Remove(id: string) returns (r: Result<Deleted, ApiError>)
      requires store.Valid()
      modifies store
      ensures store.Valid()
      ensures FindService(old(store.services), id).None? ==>
        && r == Err(NotFoundError(NotFoundMessage(id)))
        && store.services == old(store.services) && store.endpoints == old(store.endpoints)
      ensures FindService(old(store.services), id).Some? ==>
        var i := FindService(old(store.services), id).value;
        && r == Ok(Deleted("Service deleted", id))
        && store.services == old(store.services)[..i] + old(store.services)[i + 1..]
        && store.endpoints == Filter(old(store.endpoints), (x: EndpointRow) => x.serviceId != id)
      ensures FindService(store.services, id).None?
    {
      var found := FindService(store.services, id);
      if found.None? {
        return Err(NotFoundError(NotFoundMessage(id)));
      }
      var i := found.value;
      var s, e := store.services, store.endpoints;
      DeleteServiceConsistent(s, e, id);
      forall j | 0 <= j < |s| && j != i ensures s[j].id != id {
        assert ServiceId(s[j]) != ServiceId(s[i]) by {
          if j < i { assert ServiceId(s[j]) != ServiceId(s[i]); } else { assert ServiceId(s[i]) != ServiceId(s[j]); }
        }
      }
      FilterRemovesOne(s, (x: ServiceRow) => x.id != id, i);
      store.services := s[..i] + s[i + 1..];
      store.endpoints := Filter(e, (x: EndpointRow) => x.serviceId != id);
      r := Ok(Deleted("Service deleted", id));
      RemovedIsGone(s, id, i);
    }
  }

  /** A removed service is gone: `findOne` on its id then throws not-found. */
  lemma RemovedIsGone(s: seq<ServiceRow>, id: string, i: nat)
    requires UniqueBy(s, ServiceId) && i < |s| && s[i].id == id
    ensures FindService(s[..i] + s[i + 1..], id).None?
  {
    var t := s[..i] + s[i + 1..];
    forall k | 0 <= k < |t| ensures t[k].id != id {
      if k < i {
        assert t[k] == s[k] && ServiceId(s[k]) != ServiceId(s[i]);
      } else {
        assert t[k] == s[k + 1] && ServiceId(s[i]) != ServiceId(s[k + 1]);
      }
    }
  }
}
