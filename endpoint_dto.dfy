/**
 * The endpoint DTOs (apps/api/src/endpoints/dto/endpoint.dto.ts): their
 * constraints, stated once as decorators run by class-validator and once
 * directly, the two proved to agree, and the typed input each valid body
 * yields.
 */
module EndpointDto {
  import opened Wrappers
  import opened Seqs
  import opened Catalog
  import opened Ordering
  import opened ValidationErrors
  import opened Rules

  /** `EndpointSortBy`. */
  datatype EndpointSortBy = ByPath | ByCreatedAt | ByMethod

  const EndpointSortByNames: seq<string> := ["path", "createdAt", "method"]

  /** The query-string spelling of each `EndpointSortBy`. */
  function EndpointSortByName(b: EndpointSortBy): string {
    match b
    case ByPath => "path"
    case ByCreatedAt => "createdAt"
    case ByMethod => "method"
  }

  /** Decodes `sortBy`: the accepted strings are the spellings, each naming its own order. */
  function ParseEndpointSortBy(n: string): (r: Option<EndpointSortBy>)
    ensures r.Some? <==> n in EndpointSortByNames
    ensures r.Some? ==> EndpointSortByName(r.value) == n
    ensures r == Some(ByPath) <==> n == "path"
    ensures r == Some(ByCreatedAt) <==> n == "createdAt"
    ensures r == Some(ByMethod) <==> n == "method"
  {
    if n == "path" then Some(ByPath)
    else if n == "createdAt" then Some(ByCreatedAt)
    else if n == "method" then Some(ByMethod)
    else None
  }

  const PathMessage: string := "path must start with /"

  /**
   * A create or update body, property by property (`None`: absent).  The
   * `method` property is named `httpMethod`: `method` is a Dafny keyword.
   */
  datatype EndpointBody = EndpointBody(
    httpMethod: Option<Value>,
    path: Option<Value>,
    version: Option<Value>,
    slaMs: Option<Value>,
    authType: Option<Value>)

  /** The query of `GET /services/:serviceId/endpoints`. */
  datatype EndpointListParams = EndpointListParams(sortBy: Option<Value>, sortOrder: Option<Value>)

  /** `CreateEndpointDto` once validated. */
  datatype CreateEndpointDto = CreateEndpointDto(
    httpMethod: HttpMethod,
    path: string,
    version: string,
    slaMs: int,
    authType: AuthType)

  /** `UpdateEndpointDto` once validated. */
  datatype UpdateEndpointDto = UpdateEndpointDto(
    httpMethod: Option<HttpMethod>,
    path: Option<string>,
    version: Option<string>,
    slaMs: Option<int>,
    authType: Option<AuthType>)

  /** `ListEndpointsQueryDto` once validated. */
  datatype ListEndpointsQueryDto = ListEndpointsQueryDto(
    sortBy: Option<EndpointSortBy>,
    sortOrder: Option<SortOrder>)

  // The decorators of each property, bottom to top.  The update DTO repeats
  // the create DTO's decorators under @IsOptional().
  const MethodRules: seq<Rule> := [IsIn(HttpMethodNames)]
  const PathRules: seq<Rule> := [StartsWithSlash(PathMessage), MinLength(2), IsString]
  const VersionRules: seq<Rule> := [MinLength(1), IsString]
  const SlaRules: seq<Rule> := [Max(10000), Min(50), IsInt]
  const AuthTypeRules: seq<Rule> := [IsIn(AuthTypeNames)]

  /** The errors class-validator reports for a body, in property order. */
  function BodyErrors(b: EndpointBody, optional: bool): seq<ValidationError> {
    CheckField(Field("method", optional, MethodRules), b.httpMethod)
      + CheckField(Field("path", optional, PathRules), b.path)
      + LaterBodyErrors(b, optional)
  }

  /** The errors of the properties declared after `path`. */
  function LaterBodyErrors(b: EndpointBody, optional: bool): seq<ValidationError> {
    CheckField(Field("version", optional, VersionRules), b.version)
      + CheckField(Field("slaMs", optional, SlaRules), b.slaMs)
      + CheckField(Field("authType", optional, AuthTypeRules), b.authType)
  }

  function ListErrors(q: EndpointListParams): seq<ValidationError> {
    CheckField(Field("sortBy", true, [IsIn(EndpointSortByNames)]), q.sortBy)
      + CheckField(Field("sortOrder", true, [IsIn(SortOrderNames)]), q.sortOrder)
  }

  // The constraints stated directly.

  predicate ValidMethod(v: Value) { v.Str? && v.s in HttpMethodNames }
  /** A string of at least two characters whose first character is '/'. */
  predicate ValidPath(v: Value) { v.Str? && |v.s| >= 2 && v.s[0] == '/' }
  predicate ValidVersion(v: Value) { v.Str? && |v.s| >= 1 }
  /** An integer from 50 to 10000 inclusive. */
  predicate ValidSla(v: Value) { v.Num? && IsInteger(v.x) && 50.0 <= v.x <= 10000.0 }
  predicate ValidAuthType(v: Value) { v.Str? && v.s in AuthTypeNames }

  predicate ValidBody(b: EndpointBody, optional: bool) {
    && (if b.httpMethod.None? then optional else ValidMethod(b.httpMethod.value))
    && (if b.path.None? then optional else ValidPath(b.path.value))
    && (if b.version.None? then optional else ValidVersion(b.version.value))
    && (if b.slaMs.None? then optional else ValidSla(b.slaMs.value))
    && (if b.authType.None? then optional else ValidAuthType(b.authType.value))
  }

  predicate ValidListParams(q: EndpointListParams) {
    && (q.sortBy.None? || (q.sortBy.value.Str? && q.sortBy.value.s in EndpointSortByNames))
    && (q.sortOrder.None? || (q.sortOrder.value.Str? && q.sortOrder.value.s in SortOrderNames))
  }

  lemma PathFieldExactly(optional: bool, v: Option<Value>)
    ensures CheckField(Field("path", optional, PathRules), v) == [] <==>
      if v.None? then optional else ValidPath(v.value)
  {
    AllHoldThree(StartsWithSlash(PathMessage), MinLength(2), IsString, v);
  }

  lemma VersionFieldExactly(optional: bool, v: Option<Value>)
    ensures CheckField(Field("version", optional, VersionRules), v) == [] <==>
      if v.None? then optional else ValidVersion(v.value)
  {
    AllHoldTwo(MinLength(1), IsString, v);
  }

  lemma SlaFieldExactly(optional: bool, v: Option<Value>)
    ensures CheckField(Field("slaMs", optional, SlaRules), v) == [] <==>
      if v.None? then optional else ValidSla(v.value)
  {
    AllHoldThree(Max(10000), Min(50), IsInt, v);
  }

  /** The decorators reject nothing exactly when the direct constraints hold. */
  lemma BodyErrorsExactly(b: EndpointBody, optional: bool)
    ensures BodyErrors(b, optional) == [] <==> ValidBody(b, optional)
  {
    IsInFieldExactly("method", optional, HttpMethodNames, b.httpMethod);
    PathFieldExactly(optional, b.path);
    VersionFieldExactly(optional, b.version);
    SlaFieldExactly(optional, b.slaMs);
    IsInFieldExactly("authType", optional, AuthTypeNames, b.authType);
  }

  lemma ListErrorsExactly(q: EndpointListParams)
    ensures ListErrors(q) == [] <==> ValidListParams(q)
  {
    IsInFieldExactly("sortBy", true, EndpointSortByNames, q.sortBy);
    IsInFieldExactly("sortOrder", true, SortOrderNames, q.sortOrder);
  }

  /**
   * The validation pipe on a create body: the typed DTO when every
   * constraint holds, and otherwise the pipe's Bad Request body.
   */
  function ValidateCreate(b: EndpointBody): (r: Result<CreateEndpointDto, ValidationFailure>)
    ensures r.Ok? <==> ValidBody(b, false)
    ensures r.Err? ==> r.error == ExceptionFactory(BodyErrors(b, false))
    ensures r.Ok? ==>
      && MethodName(r.value.httpMethod) == b.httpMethod.value.s
      && r.value.path == b.path.value.s && |r.value.path| >= 2 && r.value.path[0] == '/'
      && r.value.version == b.version.value.s && |r.value.version| >= 1
      && r.value.slaMs as real == b.slaMs.value.x && 50 <= r.value.slaMs <= 10000
      && AuthTypeName(r.value.authType) == b.authType.value.s
  {
    BodyErrorsExactly(b, false);
    if ValidBody(b, false) then
      Ok(CreateEndpointDto(
        ParseMethod(b.httpMethod.value.s).value,
        b.path.value.s,
        b.version.value.s,
        b.slaMs.value.x.Floor,
        ParseAuthType(b.authType.value.s).value))
    else
      Err(ExceptionFactory(BodyErrors(b, false)))
  }

  /** The validation pipe on an update body: every property may be absent. */
  function ValidateUpdate(b: EndpointBody): (r: Result<UpdateEndpointDto, ValidationFailure>)
    ensures r.Ok? <==> ValidBody(b, true)
    ensures r.Err? ==> r.error == ExceptionFactory(BodyErrors(b, true))
    ensures r.Ok? ==>
      && (r.value.httpMethod.Some? <==> b.httpMethod.Some?)
      && (r.value.httpMethod.Some? ==> MethodName(r.value.httpMethod.value) == b.httpMethod.value.s)
      && (r.value.path.Some? <==> b.path.Some?)
      && (r.value.path.Some? ==> r.value.path.value == b.path.value.s && ValidPath(b.path.value))
      && (r.value.version.Some? <==> b.version.Some?)
      && (r.value.version.Some? ==> r.value.version.value == b.version.value.s && ValidVersion(b.version.value))
      && (r.value.slaMs.Some? <==> b.slaMs.Some?)
      && (r.value.slaMs.Some? ==> r.value.slaMs.value as real == b.slaMs.value.x && 50 <= r.value.slaMs.value <= 10000)
      && (r.value.authType.Some? <==> b.authType.Some?)
      && (r.value.authType.Some? ==> AuthTypeName(r.value.authType.value) == b.authType.value.s)
  {
    BodyErrorsExactly(b, true);
    if ValidBody(b, true) then
      Ok(UpdateEndpointDto(
        if b.httpMethod.Some? then ParseMethod(b.httpMethod.value.s) else None,
        if b.path.Some? then Some(b.path.value.s) else None,
        if b.version.Some? then Some(b.version.value.s) else None,
        if b.slaMs.Some? then Some(b.slaMs.value.x.Floor) else None,
        if b.authType.Some? then ParseAuthType(b.authType.value.s) else None))
    else
      Err(ExceptionFactory(BodyErrors(b, true)))
  }

  /** The validation pipe on the list query; both parameters are optional. */
  function ValidateList(q: EndpointListParams): (r: Result<ListEndpointsQueryDto, ValidationFailure>)
    ensures r.Ok? <==> ValidListParams(q)
    ensures r.Err? ==> r.error == ExceptionFactory(ListErrors(q))
    ensures r.Ok? ==> (r.value.sortBy.Some? <==> q.sortBy.Some?) && (r.value.sortOrder.Some? <==> q.sortOrder.Some?)
    ensures r.Ok? && r.value.sortBy.Some? ==> EndpointSortByName(r.value.sortBy.value) == q.sortBy.value.s
    ensures r.Ok? && r.value.sortOrder.Some? ==> (r.value.sortOrder.value == Asc <==> q.sortOrder.value.s == "asc")
  {
    ListErrorsExactly(q);
    if ValidListParams(q) then
      Ok(ListEndpointsQueryDto(
        if q.sortBy.Some? then ParseEndpointSortBy(q.sortBy.value.s) else None,
        if q.sortOrder.Some? then ParseSortOrder(q.sortOrder.value.s) else None))
    else
      Err(ExceptionFactory(ListErrors(q)))
  }

  /** A string not starting with '/' fails `@Matches` first. */
  lemma PathFailuresFirst(v: Option<Value>)
    requires v.Some? && v.value.Str? && (v.value.s == "" || v.value.s[0] != '/')
    ensures Failures(PathRules, "path", v) != []
    ensures Failures(PathRules, "path", v)[0] == ("matches", PathMessage)
  {
    assert PathRules[0] == StartsWithSlash(PathMessage);
    assert !Holds(PathRules[0], v);
  }

  /**
   * A present path that does not start with '/' is rejected, and the
   * response lists `"path: path must start with /"`.
   */
  lemma PathWithoutSlashRejected(b: EndpointBody, optional: bool)
    requires b.path.Some? && b.path.value.Str?
    requires b.path.value.s == "" || b.path.value.s[0] != '/'
    ensures Line("path", PathMessage) in ExceptionFactory(BodyErrors(b, optional)).errors
    ensures !ValidBody(b, optional)
  {
    var m := CheckField(Field("method", optional, MethodRules), b.httpMethod);
    var p := CheckField(Field("path", optional, PathRules), b.path);
    var rest := LaterBodyErrors(b, optional);
    PathFailuresFirst(b.path);
    var e := ValidationError("path", Some(Failures(PathRules, "path", b.path)), []);
    assert p == [e];
    assert Messages(e.constraints)[0] == PathMessage;
    MessageListed(m, e, rest, 0);
  }
}
