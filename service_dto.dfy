/**
 * The service DTOs (apps/api/src/services/dto/create-service.dto.ts): the
 * create body and the list query, their decorators, the same constraints
 * stated directly, the two proved to agree, and the defaults of `page` and
 * `limit`.  The update body is the create body with every property under
 * `@IsOptional()`.
 */
module ServiceDto {
  import opened Wrappers
  import opened Seqs
  import opened Catalog
  import opened Ordering
  import opened ValidationErrors
  import opened Rules

  /** `ServiceSortBy`. */
  datatype ServiceSortBy = ByName | ByCreatedAt

  const ServiceSortByNames: seq<string> := ["name", "createdAt"]

  /** The query-string spelling of each `ServiceSortBy`. */
  function ServiceSortByName(b: ServiceSortBy): string {
    match b
    case ByName => "name"
    case ByCreatedAt => "createdAt"
  }

  /** Decodes `sortBy`: the accepted strings are the spellings, each naming its own order. */
  function ParseServiceSortBy(n: string): (r: Option<ServiceSortBy>)
    ensures r.Some? <==> n in ServiceSortByNames
    ensures r.Some? ==> ServiceSortByName(r.value) == n
    ensures r == Some(ByName) <==> n == "name"
    ensures r == Some(ByCreatedAt) <==> n == "createdAt"
  {
    if n == "name" then Some(ByName)
    else if n == "createdAt" then Some(ByCreatedAt)
    else None
  }

  const MaxTags: nat := 10
  const DefaultPage: nat := 1
  const DefaultLimit: nat := 10
  const MaxLimit: nat := 50

  /** A create or update body, property by property (`None`: absent). */
  datatype ServiceBody = ServiceBody(
    name: Option<Value>,
    description: Option<Value>,
    owner: Option<Value>,
    status: Option<Value>,
    tags: Option<Value>)

  /** The query of `GET /services`. */
  datatype ServiceListParams = ServiceListParams(
    search: Option<Value>,
    status: Option<Value>,
    tag: Option<Value>,
    sortBy: Option<Value>,
    sortOrder: Option<Value>,
    page: Option<Value>,
    limit: Option<Value>)

  /** `CreateServiceDto` once validated. */
  datatype CreateServiceDto = CreateServiceDto(
    name: string,
    description: Option<string>,
    owner: Option<string>,
    status: Option<ServiceStatus>,
    tags: Option<seq<string>>)

  /** `UpdateServiceDto` once validated. */
  datatype UpdateServiceDto = UpdateServiceDto(
    name: Option<string>,
    description: Option<string>,
    owner: Option<string>,
    status: Option<ServiceStatus>,
    tags: Option<seq<string>>)

  /**
   * `ListServicesQueryDto` once validated.  `page` and `limit` are
   * optional here because the service still guards them with `??`.
   */
  datatype ListServicesQueryDto = ListServicesQueryDto(
    search: Option<string>,
    status: Option<ServiceStatus>,
    tag: Option<string>,
    sortBy: Option<ServiceSortBy>,
    sortOrder: Option<SortOrder>,
    page: Option<int>,
    limit: Option<int>)

  // The decorators of each property, bottom to top.
  const NameRules: seq<Rule> := [MinLength(2), IsString]
  const StatusRules: seq<Rule> := [IsIn(ServiceStatusNames)]
  const TagsRules: seq<Rule> := [EachIsString, ArrayMaxSize(MaxTags), IsArray]
  const PageRules: seq<Rule> := [Min(1), IsInt]
  const LimitRules: seq<Rule> := [Max(MaxLimit), Min(1), IsInt]

  /**
   * The errors class-validator reports for a body; `nameOptional` is false
   * for the create body and true for the update body.
   */
  function BodyErrors(b: ServiceBody, nameOptional: bool): seq<ValidationError> {
    CheckField(Field("name", nameOptional, NameRules), b.name) + OtherBodyErrors(b)
  }

  /** The errors of the properties after `name`, which are optional in both bodies. */
  function OtherBodyErrors(b: ServiceBody): seq<ValidationError> {
    CheckField(Field("description", true, [IsString]), b.description)
      + CheckField(Field("owner", true, [IsString]), b.owner)
      + CheckField(Field("status", true, StatusRules), b.status)
      + CheckField(Field("tags", true, TagsRules), b.tags)
  }

  /**
   * The value a query parameter has when validation runs: an absent `page`
   * or `limit` keeps its property initializer.
   */
  function WithDefault(v: Option<Value>, default: nat): (r: Option<Value>)
    ensures r.Some?
    ensures v.Some? ==> r == v
    ensures v.None? ==> r == Some(Num(default as real))
  {
    if v.None? then Some(Num(default as real)) else v
  }

  function ListErrors(q: ServiceListParams): seq<ValidationError> {
    CheckField(Field("search", true, [IsString]), q.search)
      + CheckField(Field("status", true, StatusRules), q.status)
      + CheckField(Field("tag", true, [IsString]), q.tag)
      + CheckField(Field("sortBy", true, [IsIn(ServiceSortByNames)]), q.sortBy)
      + CheckField(Field("sortOrder", true, [IsIn(SortOrderNames)]), q.sortOrder)
      + CheckField(Field("page", true, PageRules), WithDefault(q.page, DefaultPage))
      + CheckField(Field("limit", true, LimitRules), WithDefault(q.limit, DefaultLimit))
  }

  // The constraints stated directly.

  /** A string of at least two characters. */
  predicate ValidName(v: Value) { v.Str? && |v.s| >= 2 }
  predicate ValidStatus(v: Value) { v.Str? && v.s in ServiceStatusNames }
  /** An array of at most ten strings; the bound counts tags before normalisation. */
  predicate ValidTags(v: Value) {
    v.Arr? && |v.items| <= MaxTags && forall i :: 0 <= i < |v.items| ==> v.items[i].Str?
  }
  /** An integer of at least 1. */
  predicate ValidPage(v: Value) { v.Num? && IsInteger(v.x) && v.x >= 1.0 }
  /** An integer from 1 to 50 inclusive. */
  predicate ValidLimit(v: Value) { v.Num? && IsInteger(v.x) && 1.0 <= v.x <= MaxLimit as real }

  predicate ValidBody(b: ServiceBody, nameOptional: bool) {
    && (if b.name.None? then nameOptional else ValidName(b.name.value))
    && (b.description.None? || b.description.value.Str?)
    && (b.owner.None? || b.owner.value.Str?)
    && (b.status.None? || ValidStatus(b.status.value))
    && (b.tags.None? || ValidTags(b.tags.value))
  }

  predicate ValidListParams(q: ServiceListParams) {
    && (q.search.None? || q.search.value.Str?)
    && (q.status.None? || ValidStatus(q.status.value))
    && (q.tag.None? || q.tag.value.Str?)
    && (q.sortBy.None? || (q.sortBy.value.Str? && q.sortBy.value.s in ServiceSortByNames))
    && (q.sortOrder.None? || (q.sortOrder.value.Str? && q.sortOrder.value.s in SortOrderNames))
    && (q.page.None? || ValidPage(q.page.value))
    && (q.limit.None? || ValidLimit(q.limit.value))
  }

  lemma NameFieldExactly(optional: bool, v: Option<Value>)
    ensures CheckField(Field("name", optional, NameRules), v) == [] <==>
      if v.None? then optional else ValidName(v.value)
  {
    AllHoldTwo(MinLength(2), IsString, v);
  }

  lemma TagsFieldExactly(v: Option<Value>)
    ensures CheckField(Field("tags", true, TagsRules), v) == [] <==> v.None? || ValidTags(v.value)
  {
    AllHoldThree(EachIsString, ArrayMaxSize(MaxTags), IsArray, v);
  }

  lemma PageFieldExactly(v: Option<Value>)
    ensures CheckField(Field("page", true, PageRules), WithDefault(v, DefaultPage)) == [] <==>
      v.None? || ValidPage(v.value)
  {
    AllHoldTwo(Min(1), IsInt, WithDefault(v, DefaultPage));
  }

  lemma LimitFieldExactly(v: Option<Value>)
    ensures CheckField(Field("limit", true, LimitRules), WithDefault(v, DefaultLimit)) == [] <==>
      v.None? || ValidLimit(v.value)
  {
    AllHoldThree(Max(MaxLimit), Min(1), IsInt, WithDefault(v, DefaultLimit));
  }

  /** The decorators reject nothing exactly when the direct constraints hold. */
  lemma BodyErrorsExactly(b: ServiceBody, nameOptional: bool)
    ensures BodyErrors(b, nameOptional) == [] <==> ValidBody(b, nameOptional)
  {
    NameFieldExactly(nameOptional, b.name);
    IsStringFieldExactly("description", true, b.description);
    IsStringFieldExactly("owner", true, b.owner);
    IsInFieldExactly("status", true, ServiceStatusNames, b.status);
    TagsFieldExactly(b.tags);
  }

  lemma ListErrorsExactly(q: ServiceListParams)
    ensures ListErrors(q) == [] <==> ValidListParams(q)
  {
    IsStringFieldExactly("search", true, q.search);
    IsInFieldExactly("status", true, ServiceStatusNames, q.status);
    IsStringFieldExactly("tag", true, q.tag);
    IsInFieldExactly("sortBy", true, ServiceSortByNames, q.sortBy);
    IsInFieldExactly("sortOrder", true, SortOrderNames, q.sortOrder);
    PageFieldExactly(q.page);
    LimitFieldExactly(q.limit);
  }

  /** The strings of an array all of whose items are strings. */
  function Strings(items: seq<Value>): (r: seq<string>)
    requires forall i :: 0 <= i < |items| ==> items[i].Str?
    ensures |r| == |items|
    ensures forall i :: 0 <= i < |items| ==> r[i] == items[i].s
  {
    seq(|items|, i requires 0 <= i < |items| => items[i].s)
  }

  function OptString(v: Option<Value>): Option<string>
    requires v.None? || v.value.Str?
  {
    if v.Some? then Some(v.value.s) else None
  }

  predicate TagsCopied(tags: Option<seq<string>>, v: Option<Value>) {
    && (tags.Some? <==> v.Some?)
    && (tags.Some? ==> v.value.Arr? && |tags.value| == |v.value.items| <= MaxTags)
    && (tags.Some? ==> forall i :: 0 <= i < |tags.value| ==> v.value.items[i].Str? && tags.value[i] == v.value.items[i].s)
  }

  predicate StringCopied(s: Option<string>, v: Option<Value>) {
    (s.Some? <==> v.Some?) && (s.Some? ==> v.value.Str? && s.value == v.value.s)
  }

  predicate StatusCopied(st: Option<ServiceStatus>, v: Option<Value>) {
    (st.Some? <==> v.Some?) && (st.Some? ==> v.value.Str? && StatusName(st.value) == v.value.s)
  }

  /** The typed create DTO of a valid body. */
  function CreateDto(b: ServiceBody): (d: CreateServiceDto)
    requires ValidBody(b, false)
    ensures d.name == b.name.value.s && |d.name| >= 2
    ensures StringCopied(d.description, b.description)
    ensures StringCopied(d.owner, b.owner)
    ensures StatusCopied(d.status, b.status)
    ensures TagsCopied(d.tags, b.tags)
  {
    CreateServiceDto(
      b.name.value.s,
      OptString(b.description),
      OptString(b.owner),
      if b.status.Some? then ParseStatus(b.status.value.s) else None,
      if b.tags.Some? then Some(Strings(b.tags.value.items)) else None)
  }

  /** The typed update DTO of a valid body. */
  function UpdateDto(b: ServiceBody): (d: UpdateServiceDto)
    requires ValidBody(b, true)
    ensures StringCopied(d.name, b.name) && (d.name.Some? ==> |d.name.value| >= 2)
    ensures StringCopied(d.description, b.description)
    ensures StringCopied(d.owner, b.owner)
    ensures StatusCopied(d.status, b.status)
    ensures TagsCopied(d.tags, b.tags)
  {
    UpdateServiceDto(
      OptString(b.name),
      OptString(b.description),
      OptString(b.owner),
      if b.status.Some? then ParseStatus(b.status.value.s) else None,
      if b.tags.Some? then Some(Strings(b.tags.value.items)) else None)
  }

  /**
   * The typed list query of valid parameters.  An absent `page` or `limit`
   * comes out as its default, 1 and 10.
   */
  function ListQuery(q: ServiceListParams): (d: ListServicesQueryDto)
    requires ValidListParams(q)
    ensures StringCopied(d.search, q.search)
    ensures StatusCopied(d.status, q.status)
    ensures StringCopied(d.tag, q.tag)
    ensures d.sortBy.Some? <==> q.sortBy.Some?
    ensures d.sortBy.Some? ==> ServiceSortByName(d.sortBy.value) == q.sortBy.value.s
    ensures d.sortOrder.Some? <==> q.sortOrder.Some?
    ensures d.sortOrder.Some? ==> (d.sortOrder.value == Asc <==> q.sortOrder.value.s == "asc")
    ensures d.page.Some? && d.page.value >= 1
    ensures d.limit.Some? && 1 <= d.limit.value <= MaxLimit
    ensures q.page.None? ==> d.page.value == DefaultPage
    ensures q.page.Some? ==> d.page.value as real == q.page.value.x
    ensures q.limit.None? ==> d.limit.value == DefaultLimit
    ensures q.limit.Some? ==> d.limit.value as real == q.limit.value.x
  {
    ListServicesQueryDto(
      OptString(q.search),
      if q.status.Some? then ParseStatus(q.status.value.s) else None,
      OptString(q.tag),
      if q.sortBy.Some? then ParseServiceSortBy(q.sortBy.value.s) else None,
      if q.sortOrder.Some? then ParseSortOrder(q.sortOrder.value.s) else None,
      Some(if q.page.Some? then q.page.value.x.Floor else DefaultPage),
      Some(if q.limit.Some? then q.limit.value.x.Floor else DefaultLimit))
  }

  /** The validation pipe on a create body. */
  function ValidateCreate(b: ServiceBody): (r: Result<CreateServiceDto, ValidationFailure>)
    ensures r.Ok? <==> ValidBody(b, false)
    ensures r.Ok? ==> r.value == CreateDto(b)
    ensures r.Err? ==> r.error == ExceptionFactory(BodyErrors(b, false))
  {
    BodyErrorsExactly(b, false);
    if ValidBody(b, false) then Ok(CreateDto(b)) else Err(ExceptionFactory(BodyErrors(b, false)))
  }

  /** The validation pipe on an update body: every property may be absent. */
  function ValidateUpdate(b: ServiceBody): (r: Result<UpdateServiceDto, ValidationFailure>)
    ensures r.Ok? <==> ValidBody(b, true)
    ensures r.Ok? ==> r.value == UpdateDto(b)
    ensures r.Err? ==> r.error == ExceptionFactory(BodyErrors(b, true))
  {
    BodyErrorsExactly(b, true);
    if ValidBody(b, true) then Ok(UpdateDto(b)) else Err(ExceptionFactory(BodyErrors(b, true)))
  }

  /** The validation pipe on the list query. */
  function ValidateList(q: ServiceListParams): (r: Result<ListServicesQueryDto, ValidationFailure>)
    ensures r.Ok? <==> ValidListParams(q)
    ensures r.Ok? ==> r.value == ListQuery(q)
    ensures r.Err? ==> r.error == ExceptionFactory(ListErrors(q))
  {
    ListErrorsExactly(q);
    if ValidListParams(q) then Ok(ListQuery(q)) else Err(ExceptionFactory(ListErrors(q)))
  }

  /** A string shorter than two characters fails `@MinLength(2)` only. */
  lemma NameFailures(v: Option<Value>)
    requires v.Some? && v.value.Str? && |v.value.s| < 2
    ensures Failures(NameRules, "name", v) == [("minLength", Message(MinLength(2), "name"))]
  {
    assert !Holds(NameRules[0], v);
    assert Holds(NameRules[1], v);
    assert NameRules[1..][1..] == [];
    assert Failures(NameRules[1..], "name", v) == [];
  }

  /**
   * A create body whose name is a string shorter than two characters is
   * rejected, and the first line of the response is the `name` property's
   * minimum-length message.
   */
  lemma ShortNameRejected(b: ServiceBody)
    requires b.name.Some? && b.name.value.Str? && |b.name.value.s| < 2
    ensures ValidateCreate(b).Err?
    ensures ValidateCreate(b).error.message == "Validation failed"
    ensures ValidateCreate(b).error.errors != []
    ensures ValidateCreate(b).error.errors[0] == Line("name", Message(MinLength(2), "name"))
  {
    NameFailures(b.name);
    var fs := Failures(NameRules, "name", b.name);
    var e := ValidationError("name", Some(fs), []);
    var rest := OtherBodyErrors(b);
    assert CheckField(Field("name", false, NameRules), b.name) == [e];
    assert BodyErrors(b, false) == [e] + rest;
    FirstLine(e, rest);
    assert ValidateCreate(b) == Err(ExceptionFactory([e] + rest));
  }

  /**
   * The body `{ name: 'a' }`: rejected with exactly one line, which starts
   * with `name`.
   */
  lemma OneLetterNameRejected()
    ensures var r := ValidateCreate(ServiceBody(Some(Str("a")), None, None, None, None));
      && r.Err?
      && r.error.message == "Validation failed"
      && |r.error.errors| == 1
      && IsPrefix("name", r.error.errors[0])
  {
    var b := ServiceBody(Some(Str("a")), None, None, None, None);
    ShortNameRejected(b);
    var e := CheckField(Field("name", false, NameRules), b.name);
    assert BodyErrors(b, false) == e;
    assert MessageCount(e) == 1 by {
      assert |Failures(NameRules, "name", b.name)| == 1;
      assert e[1..] == [];
    }
    PrefixOfConcat("name", "name", ": " + Message(MinLength(2), "name"));
  }
}
