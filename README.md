# Service catalog, modelled in Dafny

This project models the core of a small service catalog. The API side is a NestJS application over a Prisma database; the web side is a Vue client.

The catalog keeps **services** and their **endpoints**:

- A service has a unique name, an optional description and owner, a status and a list of tags.
- An endpoint belongs to one service and has an HTTP method, a path, a version, an SLA in milliseconds and an auth type.

The model covers these parts of the system:

- **The closed enumerations.** These are the service statuses, HTTP methods and auth types (`catalog.dfy`), plus the sort orders (`ordering.dfy`).
- **Input validation.** The validation pipe checks request bodies and list queries against the DTO decorators (`rules.dfy`, `service_dto.dfy`, `endpoint_dto.dfy`). It renders failures as `"<path>: <message>"` lines inside a `{ message: 'Validation failed', errors }` body (`validation_errors.dfy`).
- **The storage-error filter.** It maps Prisma error codes to HTTP responses (`prisma_filter.dfy`).
- **The abstract store.** It holds two tables in storage order, and its invariant states the schema's constraints (`store.dfy`).
- **`ServicesService`** (`services.dfy`): tag normalisation (`tags.dfy`), create, the filtered, ordered and paginated list, the detail read, the partial update and the cascading delete.
- **`EndpointsService`** (`endpoints.dfy`): the per-service listing, create, partial update and delete, each behind its not-found guard.
- **`DashboardService`** (`dashboard.dfy`): the zero-filled tallies of services by status and endpoints by auth type.
- **The web client's stores and router guard.** These are the toast list (`toast.dfy`), the auth token (`auth.dfy`) and the route table with its `beforeEach` guard (`router.dfy`).

The state-changing parts of the source are classes: `Store`, `ServicesService`, `EndpointsService`, `ToastStore`, `AuthStore` and `LocalStorage`. Their methods have `modifies` clauses and state the whole new state. Each method is proved against a specification function or a store invariant. The pure parts are datatypes, functions and lemmas.

Some behaviour lives outside this model, so it is passed in as parameters:

- Values the database assigns: ids (`freshId`, with a freshness precondition) and timestamps (`now`).
- Behaviour the storage engine decides: `contains`, the substring test, and `nameLe`, `pathLe` and `methodLe`, the collations. Each collation is assumed to be a total preorder.
- The engine's sort is modelled as a stable insertion sort over storage order. Ties therefore stay in table order.

Three assumptions stand in for parts of the system that are not in this model:

- **The database schema.** Service names and ids are unique, endpoint ids are unique, and every endpoint points at an existing service. Deleting a service deletes its endpoints. `createdAt` and `@updatedAt` take the current time. These rules are stated as the store invariant `Storage.Consistent`.
- **`update-service.dto.ts`.** It is taken to be `CreateServiceDto` with every property optional.
- **The order of class-validator's messages.** A property's failed constraints are listed in the order class-validator applies decorators, bottom to top. The message texts are the library's defaults, except for `path must start with /`, which the source sets.

## Model

| member | source | states |
|---|---|---|
| Catalog.ListsDefineTypes | apps/api/src/common/constants/catalog.constants.ts:1-8 | Each constant list has pairwise distinct entries and is, in order, the list of names of its type's members. Every member of each type is in its list. |
| Catalog.NamesRoundTrip | apps/api/src/common/constants/catalog.constants.ts:1-8 | Naming a status, method or auth type and parsing the name back gives the same member. |
| Catalog.ParseStatus | apps/api/src/common/constants/catalog.constants.ts:1-2 | A string denotes a status exactly when it is in `SERVICE_STATUSES`, and that status's name is the string. |
| Catalog.ParseMethod | apps/api/src/common/constants/catalog.constants.ts:4-5 | A string denotes a method exactly when it is in `HTTP_METHODS`, and the method's name is the string. |
| Catalog.ParseAuthType | apps/api/src/common/constants/catalog.constants.ts:7-8 | A string denotes an auth type exactly when it is in `AUTH_TYPES`, and the auth type's name is the string. |
| Ordering.ParseSortOrder | apps/api/src/services/dto/create-service.dto.ts:21-24 | A sort order string is accepted exactly when it is `asc` or `desc`, and it denotes `Asc` exactly when it is `asc`. |
| Ordering.SortBy | apps/api/src/services/services.service.ts:119 | The ordered rows are a permutation of the input: same length, same multiset. |
| Ordering.SortBySorted | apps/api/src/services/services.service.ts:119 | Under a total preorder, the result of the sort is sorted. |
| Ordering.DirectedPreorder | apps/api/src/services/services.service.ts:119 | Reading a total preorder in either direction, `asc` or `desc`, is again a total preorder. |
| Tags.NormalizeTagsSpec | apps/api/src/services/services.service.ts:28-34 | An undefined tag list normalises to `[]`. Every output tag is non-empty, trimmed and the trim of some input tag. Every non-empty trimmed input tag appears. The output has no duplicates and keeps first-occurrence order. |
| Tags.NormalizeTags | apps/api/src/services/services.service.ts:28-34 | `normalizeTags`: an absent list is `[]`; otherwise trim, drop empties, keep first occurrences. Its properties are stated by `Tags.NormalizeTagsSpec` and `Tags.NormalizeTagsIdempotent`. |
| Tags.NormalizeTagsIdempotent | apps/api/src/services/services.service.ts:33 | Normalising a normalised list changes nothing. |
| Tags.DedupeFirstOccurrence | apps/api/src/services/services.service.ts:33 | `Array.from(new Set(...))` keeps the elements in the order of their first occurrence. |
| Tags.DedupeMembers | apps/api/src/services/services.service.ts:33 | Deduplication keeps exactly the input's elements and leaves none twice. |
| Tags.CleanedMembers | apps/api/src/services/services.service.ts:33 | After trim and `filter(Boolean)`, the list holds exactly the non-empty trims of input tags. |
| Tags.TrimIdempotent | apps/api/src/services/services.service.ts:33 | Trimming twice is trimming once. |
| Tags.TrimSlice | apps/api/src/services/services.service.ts:33 | A trim is a contiguous slice of its input and has no surrounding white space. |
| Tags.NormalizeTagsExample | apps/api/src/services/services.service.ts:33 | `["a", " a ", "b", "b"]` normalises to `["a", "b"]`. |
| Tags.NormalizeTagsCleanInput | apps/api/test/app.e2e-spec.ts:71-78 | The end-to-end payload's tags `["catalog", "test"]` are stored unchanged. |
| ValidationErrors.FieldPath | apps/api/src/main.ts:9 | A field path starts with its parent's path. At top level it is the property itself. |
| ValidationErrors.Flatten | apps/api/src/main.ts:7-20 | `flattenValidationErrors`: the `flatMap` of `FlattenError` over the errors. Its properties are stated by `ValidationErrors.FlattenLength`, `ValidationErrors.FlattenAppend`, `ValidationErrors.FlattenPaths` and `ValidationErrors.NestedLinesPrefixed`. |
| ValidationErrors.FlattenError | apps/api/src/main.ts:9-18 | One error's lines: its own constraint lines under its field path, then its children's lines under that path. Stated by `ValidationErrors.OwnLinesFirst` and `ValidationErrors.EmptyNodeSilent`. |
| ValidationErrors.OwnLines | apps/api/src/main.ts:10-12 | There is one line per constraint message, each rendered as `"<path>: <message>"`, in constraint order. |
| ValidationErrors.FlattenLength | apps/api/src/main.ts:7-20 | The flattened list holds as many lines as there are constraint messages in the whole error tree. |
| ValidationErrors.FlattenRendered | apps/api/src/main.ts:7-20 | The flattened lines are exactly the rendered messages of the forest, in both directions. No line is made up, and no message at any depth is lost. |
| ValidationErrors.FlattenErrorRendered | apps/api/src/main.ts:9-18 | One error's lines are exactly its own rendered messages under its field path and the rendered messages of its children under that path. |
| ValidationErrors.FlattenAppend | apps/api/src/main.ts:8 | Sibling errors keep their order: flattening a concatenation concatenates the flattenings. |
| ValidationErrors.OwnLinesFirst | apps/api/src/main.ts:14-18 | An error's own lines come before its children's lines. |
| ValidationErrors.EmptyNodeSilent | apps/api/src/main.ts:10-16 | A node with no constraints and no children contributes no line. |
| ValidationErrors.FlattenPaths | apps/api/src/main.ts:9-15 | Every line begins with the field path of one of the top-level errors. |
| ValidationErrors.NestedLinesPrefixed | apps/api/src/main.ts:9-15 | Under a non-empty parent path, every line begins with that parent path followed by `.`. |
| ValidationErrors.ExceptionFactory | apps/api/src/main.ts:36-40 | The body's message is `Validation failed`. It has one line per constraint message, and every line begins with a top-level property name. A string is a line of the body exactly when it is `"<path>: <message>"` for some node of the error tree, with `path` that node's field path and `message` one of its constraint messages. |
| ValidationErrors.MessageListed | apps/api/src/main.ts:8-12 | Every message of a top-level error appears among the body's lines, wherever the error stands in the list. |
| ValidationErrors.FirstLine | apps/api/src/main.ts:8-12 | When the first error has messages, the body's first line is that error's first message. |
| Rules.Failures | apps/api/src/endpoints/dto/endpoint.dto.ts:31-57 | A property's failed constraints are empty exactly when all of its decorators hold. |
| Rules.CheckField | apps/api/src/services/dto/create-service.dto.ts:32-52 | A property yields no error exactly when it is optional and absent or every rule holds. It yields at most one error, which is about that property and carries at least one message. |
| Rules.IsInFieldExactly | apps/api/src/endpoints/dto/endpoint.dto.ts:31-57 | An `@IsIn(list)` property passes exactly when it is optional and absent, or is a string in the list. |
| Rules.IsStringFieldExactly | apps/api/src/services/dto/create-service.dto.ts:32-40 | An `@IsString` property passes exactly when it is optional and absent, or is a string. |
| Rules.Message | apps/api/src/endpoints/dto/endpoint.dto.ts:39 | The message of a failed decorator: the custom `path must start with /` where the DTO gives it, otherwise class-validator's default wording naming the property. Used by `ServiceDto.NameFailures` and `EndpointDto.PathFailuresFirst`. |
| ServiceDto.NameFieldExactly | apps/api/src/services/dto/create-service.dto.ts:27-30 | `name` passes exactly when it is a string of length at least 2. In the update DTO it may also be absent. |
| ServiceDto.TagsFieldExactly | apps/api/src/services/dto/create-service.dto.ts:47-52 | `tags` passes exactly when it is absent or an array of at most 10 strings. The bound applies before normalisation. |
| ServiceDto.PageFieldExactly | apps/api/src/services/dto/create-service.dto.ts:81-86 | `page` passes exactly when it is absent, since the default of 1 is used, or an integer of at least 1. |
| ServiceDto.LimitFieldExactly | apps/api/src/services/dto/create-service.dto.ts:88-94 | `limit` passes exactly when it is absent, since the default of 10 is used, or an integer between 1 and 50. |
| ServiceDto.BodyErrorsExactly | apps/api/src/services/dto/create-service.dto.ts:26-53 | A service body draws no validation error exactly when its stated constraints hold. |
| ServiceDto.ListErrorsExactly | apps/api/src/services/dto/create-service.dto.ts:55-95 | A list query draws no validation error exactly when its stated constraints hold. |
| ServiceDto.ParseServiceSortBy | apps/api/src/services/dto/create-service.dto.ts:71-74 | A `sortBy` string is accepted exactly when it is `name` or `createdAt`. `name` selects ordering by name and `createdAt` ordering by creation time: the spelling of the decoded key is the string. |
| ServiceDto.WithDefault | apps/api/src/services/dto/create-service.dto.ts:86-94 | An absent parameter takes its default, and a present one is kept. |
| ServiceDto.CreateDto | apps/api/src/services/dto/create-service.dto.ts:26-53 | The typed DTO copies every property of a valid body, and its name is at least 2 long. |
| ServiceDto.UpdateDto | apps/api/src/services/dto/create-service.dto.ts:26-53 | The typed update DTO has exactly the properties the body has, copied. A present name is at least 2 long. |
| ServiceDto.ListQuery | apps/api/src/services/dto/create-service.dto.ts:55-95 | The typed query copies the filters. `sortBy` is present exactly when given and is then the key spelt by the query string. `sortOrder` is present exactly when given and is `Asc` exactly when the string is `asc`. `page` is at least 1 and defaults to 1. `limit` is between 1 and 50 and defaults to 10. |
| ServiceDto.ValidateCreate | apps/api/src/services/dto/create-service.dto.ts:26-53 | The pipe accepts exactly the valid bodies and yields their typed DTO. Otherwise it yields the `Validation failed` body built from the errors. |
| ServiceDto.ValidateUpdate | apps/api/src/services/dto/create-service.dto.ts:26-53 | The same as `ValidateCreate`, for the update body with every property optional. |
| ServiceDto.ValidateList | apps/api/src/services/dto/create-service.dto.ts:55-95 | The same as `ValidateCreate`, for the list query. |
| ServiceDto.NameFailures | apps/api/src/services/dto/create-service.dto.ts:28-29 | A string name shorter than 2 fails only `minLength`, with class-validator's message. |
| ServiceDto.ShortNameRejected | apps/api/src/services/dto/create-service.dto.ts:27-30 | A body whose name is a string shorter than 2 is rejected. The first error line is the `name` minimum-length message. |
| ServiceDto.OneLetterNameRejected | apps/api/test/app.e2e-spec.ts:81-92 | The body `{ name: 'a' }` is rejected with `Validation failed` and one error line, and that line starts with `name`. |
| EndpointDto.ParseEndpointSortBy | apps/api/src/endpoints/dto/endpoint.dto.ts:92-96 | A `sortBy` string is accepted exactly when it is `path`, `createdAt` or `method`, and each selects the ordering of that column: the spelling of the decoded key is the string. |
| EndpointDto.PathFieldExactly | apps/api/src/endpoints/dto/endpoint.dto.ts:36-40 | `path` passes exactly when it is a string of length at least 2 starting with `/`. In the update DTO it may also be absent. |
| EndpointDto.VersionFieldExactly | apps/api/src/endpoints/dto/endpoint.dto.ts:42-45 | `version` passes exactly when it is a non-empty string. In the update DTO it may also be absent. |
| EndpointDto.SlaFieldExactly | apps/api/src/endpoints/dto/endpoint.dto.ts:47-52 | `slaMs` passes exactly when it is an integer between 50 and 10000. In the update DTO it may also be absent. |
| EndpointDto.BodyErrorsExactly | apps/api/src/endpoints/dto/endpoint.dto.ts:31-90 | An endpoint body draws no validation error exactly when method, path, version, slaMs and authType meet their constraints. In the update DTO each property may also be absent. |
| EndpointDto.ListErrorsExactly | apps/api/src/endpoints/dto/endpoint.dto.ts:92-102 | The list query is valid exactly when each of `sortBy` and `sortOrder` is absent or in its enum. |
| EndpointDto.ValidateCreate | apps/api/src/endpoints/dto/endpoint.dto.ts:31-57 | The pipe accepts exactly the valid bodies. The DTO then has method and authType in their enums, a path of length at least 2 starting with `/`, a non-empty version, and slaMs in [50, 10000], all copied from the body. Otherwise it yields the `Validation failed` body. |
| EndpointDto.ValidateUpdate | apps/api/src/endpoints/dto/endpoint.dto.ts:59-90 | Every property may be absent. A present property obeys the create rules and is copied, and an absent one stays absent. |
| EndpointDto.ValidateList | apps/api/src/endpoints/dto/endpoint.dto.ts:92-102 | The pipe accepts exactly the valid list queries, and both parameters stay optional. A given `sortBy` is decoded to the key it spells, and a given `sortOrder` to `Asc` exactly when it is `asc`. |
| EndpointDto.PathFailuresFirst | apps/api/src/endpoints/dto/endpoint.dto.ts:39 | A string path not starting with `/` fails `@Matches` first, with the message `path must start with /`. |
| EndpointDto.PathWithoutSlashRejected | apps/api/src/endpoints/dto/endpoint.dto.ts:36-40 | A body whose path does not start with `/` is invalid. Its errors include the line `path: path must start with /`. |
| PrismaFilter.Catch | apps/api/src/common/filters/prisma-exception.filter.ts:11-29 | Exactly one response per code. P2002 gives 409 with `Unique constraint violation` and the detail. P2025 gives 404 with `Record not found`. Any other code gives 400 with `Database error` and echoes the code. |
| Storage.ErrorStatus | apps/api/src/common/filters/prisma-exception.filter.ts:11-16 | A not-found exception ends in 404, and a unique-constraint violation ends in 409. |
| Storage.FindService | apps/api/src/services/services.service.ts:164 | The lookup returns the index of a row with that id, or none exists. |
| Storage.ServiceNamed | apps/api/src/services/services.service.ts:67-81 | The lookup returns the index of the row carrying the name, or none exists. This is the check the unique index makes. |
| Storage.FindEndpoint | apps/api/src/endpoints/endpoints.service.ts:47 | The lookup returns the index of an endpoint with that id, or none exists. |
| Storage.EndpointsOf | apps/api/src/endpoints/endpoints.service.ts:20 | `where: { serviceId }` keeps exactly the endpoints of that service. |
| Storage.NewestFirst | apps/api/src/services/services.service.ts:148-152 | The endpoints are reordered by `createdAt` descending, as a permutation. |
| Storage.InsertServiceConsistent | apps/api/src/services/services.service.ts:67-81 | Inserting a service with a fresh id, a free name and normalised tags keeps the store invariant. |
| Storage.UpdateServiceConsistent | apps/api/src/services/services.service.ts:172-191 | Rewriting a service in place, keeping its id and taking a name no other row has, keeps the invariant. |
| Storage.DeleteServiceConsistent | apps/api/src/services/services.service.ts:203 | Deleting a service together with its endpoints keeps the invariant. |
| Storage.InsertEndpointConsistent | apps/api/src/endpoints/endpoints.service.ts:34-43 | Inserting an endpoint with a fresh id under an existing service keeps the invariant. |
| Storage.UpdateEndpointConsistent | apps/api/src/endpoints/endpoints.service.ts:53-62 | Rewriting an endpoint in place under the same id and service keeps the invariant. |
| Storage.DeleteEndpointConsistent | apps/api/src/endpoints/endpoints.service.ts:72 | Deleting an endpoint keeps the invariant. |
| Storage.Store.constructor | apps/api/src/services/services.service.ts:26 | An empty database satisfies the invariant. |
| Services.ProjectionsAgree | apps/api/src/services/services.service.ts:36-62 | The list and detail shapes agree on every shared field. `endpointsCount` is the number of endpoints the detail lists, and those are exactly the service's endpoints. |
| Services.ToListItem | apps/api/src/services/services.service.ts:36-48 | `mapListRecord`: the row's fields, its tag values and `endpointsCount`, the number of the service's endpoints. Related to the detail by `Services.ProjectionsAgree`. |
| Services.ToDetail | apps/api/src/services/services.service.ts:50-62 | `mapDetailRecord`: the row's fields, its tag values and its endpoints. Related to the list item by `Services.ProjectionsAgree`. |
| Services.MatchingMembers | apps/api/src/services/services.service.ts:90-109 | The selection holds exactly the rows meeting every supplied filter at once: search in name or description, equal status, some equal tag. |
| Services.WhereAgrees | apps/api/src/services/services.service.ts:90-109 | The `where` object built field by field selects exactly the rows the query's filters describe. An empty `search` or `tag` adds no filter. |
| Services.ServiceOrderPreorder | apps/api/src/services/services.service.ts:111-119 | Ordering by name or by `createdAt` is a total preorder. |
| Services.OrderedSpec | apps/api/src/services/services.service.ts:111-119 | The selection is sorted as asked, by default `createdAt` descending, and is a permutation of the matching rows. |
| Services.TotalPages | apps/api/src/services/services.service.ts:138 | `totalPages` is `max(1, ceil(total / limit))`: at least 1, the pages hold all rows, and a page is added only when a row needs it. |
| Services.ListItems | apps/api/src/services/services.service.ts:133 | Each returned row is projected to the list shape, in order. |
| Services.ListPage | apps/api/src/services/services.service.ts:86-141 | The specification of `findAll`: the window of the ordered selection with its `meta`. Its properties are stated by `Services.ListedMatch`, `Services.ListedWindow`, `Services.TotalIgnoresPaging`, `Services.RowOnItsPage` and `Services.ListDefaults`. |
| Services.ListedMatch | apps/api/src/services/services.service.ts:90-133 | Every item of a page is the projection of a stored row that meets all of the query's filters. |
| Services.ListedItemMatches | apps/api/src/services/services.service.ts:90-133 | For item `k` of a page, returns the stored row it projects and shows that the row meets every filter of the query. |
| Services.ListedWindow | apps/api/src/services/services.service.ts:87-139 | The page is the at-most-`limit` window of the ordered selection starting at `(page-1)*limit`. A partial last page holds the remaining rows. `meta` is exactly the page, the limit, the selection's size and `TotalPages` of that size. |
| Services.TotalIgnoresPaging | apps/api/src/services/services.service.ts:129-137 | `meta.total` counts all matching services, whatever the page, limit or order. |
| Services.SameFilters | apps/api/src/services/services.service.ts:90-109 | The selection depends only on the three filters. |
| Services.PageItem | apps/api/src/services/services.service.ts:117-118 | Item `k` of page `n` is row `(n-1)*limit + k` of the ordered selection. |
| Services.RowOnItsPage | apps/api/src/services/services.service.ts:117-118 | Every row of the ordered selection appears on some page: row `j` is item `j % limit` of page `j / limit + 1`. |
| Services.ListDefaults | apps/api/src/services/services.service.ts:86-119 | With no paging or sort parameters, page 1 of at most 10 items is returned, ordered by `createdAt` descending. |
| Services.CreatedRowSpec | apps/api/src/services/services.service.ts:64-84 | A created service copies name, description and owner. Its status is `active` unless given. Its tags are `normalizeTags(dto.tags)`. |
| Services.CreatedRow | apps/api/src/services/services.service.ts:64-84 | The row `create` stores. Stated by `Services.CreatedRowSpec`. |
| Services.CreatedRowExample | apps/api/test/app.e2e-spec.ts:71-78 | The end-to-end create payload is stored with status `active` and tags `["catalog", "test"]`. |
| Services.UpdatedRowSpec | apps/api/src/services/services.service.ts:170-191 | Omitted fields keep their values and omitted `tags` leaves the tags alone. Supplied `tags`, even `[]`, replace all tags by their normalisation. |
| Services.UpdatedRow | apps/api/src/services/services.service.ts:170-191 | The row `update` leaves. Stated by `Services.UpdatedRowSpec`. |
| Services.NoEndpointsForUnknownService | apps/api/src/services/services.service.ts:73-80 | A service id that no row carries has no endpoints, so a created service lists none. |
| Services.ServicesService.Create | apps/api/src/services/services.service.ts:64-84 | A name already taken gives P2002 and no write. Otherwise the new row is appended and returned as a detail with no endpoints. The invariant is kept. |
| Services.ServicesService.FindAll | apps/api/src/services/services.service.ts:86-141 | The result is `ListPage`: the filtered, ordered and paginated page with its `meta`. |
| Services.ServicesService.FindOne | apps/api/src/services/services.service.ts:143-161 | An unknown id gives `Service <id> not found`. Otherwise the result is the service's detail, whose endpoints are exactly its own, newest first. |
| Services.ServicesService.Update | apps/api/src/services/services.service.ts:163-194 | An unknown id gives not-found and no write. A name taken by another row gives P2002 and no write. Otherwise only that row changes, as `UpdatedRow` says. |
| Services.ServicesService.Remove | apps/api/src/services/services.service.ts:196-209 | An unknown id gives not-found and no write. Otherwise just that row and its endpoints are deleted, the call returns `{ message: 'Service deleted', id }`, and the id is gone. |
| Services.RemovedIsGone | apps/api/src/services/services.service.ts:196-209 | After the delete no row carries the id, so a later `findOne` gives not-found. |
| Endpoints.EndpointOrderPreorder | apps/api/src/endpoints/endpoints.service.ts:16-23 | Ordering by path, `createdAt` or method is a total preorder. |
| Endpoints.EndpointListingSpec | apps/api/src/endpoints/endpoints.service.ts:16-24 | The listing holds exactly the endpoints whose `serviceId` is the argument, as a permutation, sorted as asked. |
| Endpoints.EndpointListing | apps/api/src/endpoints/endpoints.service.ts:16-24 | The specification of `findByService`: the service's endpoints ordered as the query asks. Stated by `Endpoints.EndpointListingSpec` and `Endpoints.DefaultListingIsNewestFirst`. |
| Endpoints.DefaultListingIsNewestFirst | apps/api/src/endpoints/endpoints.service.ts:16-17 | Without `sortBy` and `sortOrder`, the listing is `createdAt` descending. |
| Endpoints.CreatedEndpointSpec | apps/api/src/endpoints/endpoints.service.ts:34-43 | A created endpoint has the route's `serviceId`, and method, path, version, slaMs and authType come from the DTO. |
| Endpoints.CreatedEndpoint | apps/api/src/endpoints/endpoints.service.ts:34-43 | The endpoint `create` stores. Stated by `Endpoints.CreatedEndpointSpec`. |
| Endpoints.UpdatedEndpointSpec | apps/api/src/endpoints/endpoints.service.ts:53-62 | Only supplied properties change. The id, the service and `createdAt` stay. |
| Endpoints.UpdatedEndpoint | apps/api/src/endpoints/endpoints.service.ts:53-62 | The endpoint `update` leaves. Stated by `Endpoints.UpdatedEndpointSpec` and `Endpoints.EmptyUpdateKeepsRow`. |
| Endpoints.EmptyUpdateKeepsRow | apps/api/src/endpoints/endpoints.service.ts:53-62 | An update with no properties changes nothing but `updatedAt`. |
| Endpoints.EndpointsService.FindByService | apps/api/src/endpoints/endpoints.service.ts:9-25 | The result is not-found exactly when the service does not exist. Otherwise it is the listing, a sorted permutation of the service's endpoints. |
| Endpoints.EndpointsService.Create | apps/api/src/endpoints/endpoints.service.ts:27-44 | An unknown service gives not-found and writes no endpoint. Otherwise the new endpoint is appended and returned, and the service's listing then includes it. |
| Endpoints.EndpointsService.Update | apps/api/src/endpoints/endpoints.service.ts:46-63 | An unknown id gives `Endpoint <id> not found` and no write. Otherwise only that endpoint changes, as `UpdatedEndpoint` says. |
| Endpoints.EndpointsService.Remove | apps/api/src/endpoints/endpoints.service.ts:65-78 | An unknown id gives not-found and no write. Otherwise only that endpoint disappears, and the call returns `{ message: 'Endpoint deleted', id }`. |
| Endpoints.EndpointRemovedIsGone | apps/api/src/endpoints/endpoints.service.ts:66-72 | After the delete no endpoint carries the id. |
| Dashboard.ZeroFilled | apps/api/src/dashboard/dashboard.service.ts:30-43 | The record has exactly the given keys, each set to 0. |
| Dashboard.Tally | apps/api/src/dashboard/dashboard.service.ts:34-50 | The counting loop yields exactly the given keys, each mapped to the number of values equal to it. Other values are skipped. |
| Dashboard.GetDashboard | apps/api/src/dashboard/dashboard.service.ts:14-58 | The totals are the table sizes. `servicesByStatus` has exactly the keys active, paused and deprecated, and `endpointsByAuthType` exactly public, apiKey and jwt, each holding the number of rows with that value. Each record's counts sum to at most the total, and to the total when every row holds one of its keys. |
| Dashboard.TallySum | apps/api/src/dashboard/dashboard.service.ts:34-50 | Over distinct keys, a tally sums to the number of values that are keys: at most all values, and all of them when every value is a key. |
| Dashboard.KnownCount | apps/api/src/dashboard/dashboard.service.ts:35-46 | The count of rows the `in` guard lets through is at most the row count, and equals it when every row passes. |
| Toasts.ToastStore.constructor | apps/web/src/stores/toast.ts:11-16 | The list starts empty and the counter starts at 1. |
| Toasts.ToastStore.Push | apps/web/src/stores/toast.ts:18-20 | The new toast takes the counter's id, the counter grows by one, and the toast is appended with its type defaulting to `info`. Earlier toasts are unchanged and have smaller ids. Ids stay strictly increasing. |
| Toasts.ToastStore.Remove | apps/web/src/stores/toast.ts:23-25 | The list becomes `WithoutId(toasts, id)`, and no remaining toast has that id. |
| Toasts.WithoutId | apps/web/src/stores/toast.ts:24 | `toasts.filter((toast) => toast.id !== id)`. Stated by `Toasts.WithoutIdMembers`, `Toasts.WithoutIdRemovesOne`, `Toasts.WithoutAbsentId`, `Toasts.WithoutIdIdempotent` and `Toasts.WithoutIdIncreasing`. |
| Toasts.WithoutIdMembers | apps/web/src/stores/toast.ts:24 | Removal keeps exactly the toasts with other ids. |
| Toasts.WithoutIdRemovesOne | apps/web/src/stores/toast.ts:24 | With increasing ids, removal takes out that toast alone and keeps the rest in order. |
| Toasts.WithoutAbsentId | apps/web/src/stores/toast.ts:24 | Removing an absent id leaves the list unchanged. |
| Toasts.WithoutIdIdempotent | apps/web/src/stores/toast.ts:24 | Removing an id twice is removing it once. |
| Toasts.WithoutIdIncreasing | apps/web/src/stores/toast.ts:19-24 | Removal keeps the ids strictly increasing. |
| Auth.StoredToken | apps/web/src/stores/auth.ts:7 | The initial token is the stored value, or `''` if none is stored. |
| Auth.AuthStore.constructor | apps/web/src/stores/auth.ts:5-8 | The token is read from storage under `service_catalog_token`. |
| Auth.AuthStore.Login | apps/web/src/stores/auth.ts:13-16 | The token and the stored value both become `t`, and the user is then authenticated exactly when `t` is not empty. |
| Auth.AuthStore.Logout | apps/web/src/stores/auth.ts:17-20 | The token becomes `''`, the key is removed from storage, and the user is not authenticated. |
| Auth.LoginSurvivesReload | apps/web/src/stores/auth.ts:7-15 | A store initialised after `login(t)` holds `t` again. |
| Auth.LogoutSurvivesReload | apps/web/src/stores/auth.ts:7-19 | A store initialised after `logout()` is signed out. |
| Router.BeforeEach | apps/web/src/router/index.ts:47-60 | A non-public target while signed out redirects to `/login`. A public target while signed in redirects to `/app/services`. Otherwise navigation is allowed, that is, exactly when publicness and sign-in differ. |
| Router.TableContents | apps/web/src/router/index.ts:11-44 | The resolved route table, with full child paths and the merged `public` flag. |
| Router.Lookup | apps/web/src/router/index.ts:11-44 | A found route is in the resolved table under exactly that path; no route is found only when no table entry carries the path. Paths are compared literally (see "Left out"). |
| Router.Land | apps/web/src/router/index.ts:14-27 | The path a navigation ends on once a matched route's redirect is applied. Stated by `Router.LandSpec`. |
| Router.Navigate | apps/web/src/router/index.ts:47-60 | The guard's verdict on where a navigation lands. Stated by `Router.SignedOutGoesToLogin`, `Router.SignedInLeavesLogin` and `Router.NavigationSettles`. |
| Router.OnlyLoginIsPublic | apps/web/src/router/index.ts:12-28 | Only `/login` is public. `/` and the empty `/app` child redirect to `/app/services`, which itself does not redirect. |
| Router.PrivateUnlessLogin | apps/web/src/router/index.ts:12-49 | A path is public exactly when it is literally `/login`, and an unmatched path carries no meta. |
| Router.LandSpec | apps/web/src/router/index.ts:14-27 | A navigation lands where it was sent or on `/app/services`. |
| Router.SignedOutGoesToLogin | apps/web/src/router/index.ts:51-53 | Signed out, every navigation except to the literal path `/login` is sent to `/login`. |
| Router.SignedInLeavesLogin | apps/web/src/router/index.ts:55-57 | Signed in, a navigation to `/login` is sent to `/app/services`. |
| Router.NavigationSettles | apps/web/src/router/index.ts:47-60 | A redirect from the guard lands on a page the guard then allows, so there is no redirect loop. |

## Left out

- Prisma and the database. The model does not cover the `$transaction` atomicity of `findAll`'s count and fetch, or of the dashboard's four reads. It reads one snapshot of the store.
- The database schema is not part of this model. Its unique and cascade rules are the store invariant, and its defaults and `@updatedAt` are the `now` argument.
- Collation and substring matching of the storage engine: passed in as `contains`, `nameLe`, `pathLe` and `methodLe`. The engine's tie order is taken to be storage order.
- NestJS glue is not part of this model: controllers, `app.module.ts`, the health controller, and the Swagger, CORS, prefix and bootstrap code in `main.ts`.
- The library-internal parts of `ValidationPipe`: whitelisting, `forbidNonWhitelisted`, and the conversion done by `transform` with `enableImplicitConversion` (apps/api/src/main.ts:34-35) and by `@Type(() => Number)` (apps/api/src/endpoints/dto/endpoint.dto.ts:48, apps/api/src/endpoints/dto/endpoint.dto.ts:80). That conversion applies to bodies and queries alike, so `{"slaMs": "120"}` is accepted and `{"name": 12}` becomes `"12"`. A `Value` in the model is the value after that conversion, for bodies and queries alike; the conversion itself is not modelled. JSON `null` and JSON objects are not modelled, so a property sent as an object, such as `{"tags": {}}`, cannot be expressed.
- class-validator's message texts are the library's, which is outside this model. Only their presence, order and the property they name are relied on. `path must start with /` is the one text the source sets.
- `apps/web/src/services/api.ts` (the network client), `apps/api/prisma/seed.ts` (a one-shot script) and the end-to-end harness. The tests are only cited for expected behaviour.
- The toast auto-dismiss `setTimeout`. It calls `remove(id)` later, which is the modelled `Remove`.
- `localStorage` beyond a key-to-value map.
- Toasts.ToastStore: the counter is a field of the store, whereas the source's `toastId` is a module variable. It is the same thing for the single store instance Pinia creates.
- Dashboard.GetDashboard: the `in` guard is modelled as membership in the enum keys. JavaScript's `in` would also match inherited keys such as `toString`.
- String lengths count Dafny characters, that is code points. class-validator's `minLength` uses validator.js `isLength`, which counts a surrogate pair once (as code points do) but also leaves out the variation selectors U+FE0E and U+FE0F. A string holding those is counted longer here than by the source.
- Router: route components and dynamic-segment matching are not modelled. `services/:id` is looked up as its pattern.
- Router.Lookup: matches paths literally, but `createRouter` (apps/web/src/router/index.ts:9) sets neither `strict` nor `sensitive`, so Vue Router's matcher ignores letter case and accepts a trailing `/`. Router.PrivateUnlessLogin and Router.SignedOutGoesToLogin therefore hold for exact paths only: the source treats `/LOGIN` and `/login/` as the public login route (so a signed-out user is allowed there), while the model redirects them to `/login`.
- Services.ServicesService.Update: the tag rewrite (`deleteMany` then `create`) is one assignment of the normalised list, not two table writes.
