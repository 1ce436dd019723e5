# JSON:API configuration and relationship objects, in Dafny

This project models two small parts of the Cloud Creativity `json-api` PHP library, as far
as its test suite pins them down.

- **The API factory** (`CloudCreativity\JsonApi\Http\ApiFactory`). `configure` registers
  options per API namespace (for example `v1`). `createApi(namespace)` resolves a
  namespace into an API descriptor. The descriptor carries the namespace, the injected
  store, request interpreter and HTTP factory, and a paging strategy. The strategy's page
  and per-page parameter names default to `number` and `size` and can be overridden by the
  `paging` option. The descriptor also carries the namespace's remaining options: all of
  them except `url-prefix`, `supported-ext` and `paging`. An unknown namespace is a runtime
  error that names it.
- **The relationship object** (`CloudCreativity\JsonApi\Object\Relationship`). It is a typed
  view over a parsed relationship object of JSON:API 1.0, section "Document Structure",
  subsections "Resource Objects", "Relationships" and "Resource Linkage". Its `data` member
  (the resource linkage) is one of three things. Null means an empty to-one relationship.
  A single `{type, id}` object means a to-one relationship. A list of such objects means
  a to-many relationship, which may be empty. From that shape it derives `isHasOne`,
  `isHasMany`, `hasIdentifier` and `getData`; `getIdentifier` fails unless there is
  exactly one identifier. Its optional `meta` member defaults to an empty object, and
  `setProxy` rebinds the relationship to another parsed object.

Files:

- `results.dfy` (module `Results`): `Option` and `Result`. Runtime exceptions become `Err` values.
- `json.dfy` (module `Json`): the parsed JSON value. A `stdClass` object is a map from member
  name to value.
- `objects.dfy` (module `Objects`): `ResourceIdentifier`, `ResourceIdentifierCollection`,
  `StandardObject` and `Relationship`, with their properties and the relationship tests' scenarios.
- `http.dfy` (module `Http`): `ApiFactory`, `PagingStrategy` and the `Api` descriptor, with
  their properties and the factory tests' scenarios.

Where the library's tests are silent, the model makes these choices:

- A relationship with no `data` member behaves as if its data were null.
- `data` that is a string, number or boolean is neither to-one nor to-many, and `getData`
  fails on it.
- A to-many list with a non-object element fails `getData`, naming the element's index.
- A `meta` member that is not an object fails `getMeta`.
- `configure` merges by namespace: a namespace configured again takes its new options.
- Each of `paging.page` and `paging.per-page` overrides its own default. A missing or
  non-string value keeps the default.
- A `schemas` key in a namespace's options is an ordinary option and passes through.
  Schemas reach the factory through the schema repository instead.

Collaborators are object handles (`Http.Handle`): they are compared by identity, as
PHPUnit's `assertSame` does, and are never looked into.

## Model

| member | source | states |
|---|---|---|
| `Objects.CreateCollection` | test/Object/RelationshipTest.php:83-93 | building a collection from a list succeeds exactly when every element is an object; on success it has one identifier per element, in list order, each wrapping that element; on failure it names the first non-object element |
| `Objects.CollectionRoundTrip` | test/Object/RelationshipTest.php:89 | creating a collection from the values of any collection rebuilds that same collection |
| `Objects.CollectionValuesRoundTrip` | test/Object/RelationshipTest.php:89 | a list of objects turned into a collection and back is the same list |
| `Objects.GetData` | test/Object/RelationshipTest.php:52-106 | `getData` gives no data for null data, the wrapping identifier for an object, and the collection created from the list for a list; it fails on a list with a non-object element and on any other kind of data |
| `Objects.GetIdentifier` | test/Object/RelationshipTest.php:57-81 | `getIdentifier` succeeds exactly when `hasIdentifier` holds, and then returns the identifier `getData` returns; on null or to-many data it fails |
| `Objects.GetMeta` | test/Object/RelationshipTest.php:108-122 | with no `meta` member, `getMeta` is the empty standard object; with an object `meta` it is a standard object holding exactly that object's members |
| `Objects.SetProxy` | test/Object/RelationshipTest.php:115-122 | after `setProxy(input)` the relationship wraps exactly `input`: `hasMeta` holds exactly when `input` has `meta`, and `getData` and `getMeta` are those of a relationship built from `input`; nothing of the old object remains |
| `Objects.Data` | test/Object/RelationshipTest.php:55 | the relationship's `data` is its `data` member, and null when there is none |
| `Objects.IsHasOne` | test/Object/RelationshipTest.php:62-105 | `isHasOne` holds exactly when `getData` succeeds with no data or one identifier, i.e. when `data` is null or an object |
| `Objects.IsHasMany` | test/Object/RelationshipTest.php:62-105 | `isHasMany` excludes `isHasOne`; it holds exactly when `data` is a list, whether `getData` then yields a collection or fails on a non-object element |
| `Objects.HasIdentifier` | test/Object/RelationshipTest.php:64-77 | `hasIdentifier` holds exactly when `getData` succeeds with one identifier, i.e. when `data` is an object |
| `Objects.HasMeta` | test/Object/RelationshipTest.php:108-122 | `hasMeta` holds exactly when a `meta` member is present; without it `getMeta` is the empty standard object, with it `getMeta`, when it succeeds, holds exactly that member's object |
| `Objects.ShapesExclusive` | test/Object/RelationshipTest.php:62-105 | no relationship is both to-one and to-many; having an identifier implies to-one |
| `Objects.ShapeAgreesWithLinkage` | test/Object/RelationshipTest.php:52-106 | whenever `getData` succeeds: to-many holds exactly when it returned a collection, to-one exactly when it did not, `hasIdentifier` exactly when it returned one identifier, and "no data" exactly when to-one without an identifier |
| `Objects.ToManyPreservesOrder` | test/Object/RelationshipTest.php:83-93 | a to-many relationship over a list of objects yields a collection of the list's length whose i-th identifier wraps the list's i-th object |
| `Objects.LinkageRoundTrip` | test/Object/RelationshipTest.php:52-106 | a relationship whose `data` is the serialised form of any linkage reads back exactly that linkage |
| `Objects.DataRoundTrip` | test/Object/RelationshipTest.php:52-106 | whatever `getData` returns serialises back to the relationship's `data` member |
| `Objects.SetProxyAttachesMeta` | test/Object/RelationshipTest.php:115-122 | rebinding any relationship to an object with an object `meta` makes `hasMeta` true and `getMeta` that meta |
| `Objects.HasOneScenario` | test/Object/RelationshipTest.php:52-65 | data `{type: foo, id: 123}`: `getData` and `getIdentifier` are that identifier, to-one, not to-many, has an identifier |
| `Objects.EmptyHasOneScenario` | test/Object/RelationshipTest.php:67-81 | null data: no data, to-one, not to-many, no identifier, and `getIdentifier` fails |
| `Objects.HasManyScenario` | test/Object/RelationshipTest.php:83-94 | a two-element list: the two identifiers in order, to-many, not to-one |
| `Objects.EmptyHasManyScenario` | test/Object/RelationshipTest.php:96-106 | an empty list: the empty collection, to-many, not to-one |
| `Objects.MetaScenario` | test/Object/RelationshipTest.php:108-123 | a new relationship has no meta and an empty `getMeta`; after `setProxy` with `meta.foo = bar` it has that meta |
| `Http.NewFactory` | test/Http/ApiFactoryTest.php:78-84 | a new factory holds exactly the five collaborators it is given and has no namespace configured |
| `Http.Configure` | test/Http/ApiFactoryTest.php:144-146 | `configure` registers every given namespace with its given options, keeps the other namespaces as they were, and keeps the collaborators |
| `Http.CreatePagingStrategy` | test/Http/ApiFactoryTest.php:110-133 | without a `paging` option the keys are `number` and `size`; a string `paging.page` or `paging.per-page` replaces the matching default, and nothing else does |
| `Http.PassThroughOptions` | test/Http/ApiFactoryTest.php:135-150 | the options passed through are exactly the namespace's keys other than `url-prefix`, `supported-ext` and `paging`, with unchanged values |
| `Http.CreateApi` | test/Http/ApiFactoryTest.php:100-158 | `createApi` fails exactly when the namespace is not configured, with an error carrying that namespace; otherwise the descriptor has that namespace, the injected store, request interpreter and HTTP factory, the namespace's paging strategy, and its non-structural options unchanged |
| `Http.MessageNamesNamespace` | test/Http/ApiFactoryTest.php:152-158 | the message of an unknown-namespace error contains the namespace |
| `Http.UnknownNamespaceIsReported` | test/Http/ApiFactoryTest.php:152-158 | asking for an unconfigured namespace fails, and the failure's message contains that namespace |
| `Http.OptionsPartition` | test/Http/ApiFactoryTest.php:135-150 | the descriptor's options and the structural options share no key and together rebuild the namespace's options |
| `Http.CollaboratorsPassThrough` | test/Http/ApiFactoryTest.php:78-107 | for any collaborators and any configured namespace, the descriptor carries that namespace and exactly the injected store, request interpreter and HTTP factory |
| `Http.PagingRoundTrip` | test/Http/ApiFactoryTest.php:119-133 | a `paging` option naming both keys of any paging strategy yields exactly that strategy |
| `Http.ConfigureThenCreate` | test/Http/ApiFactoryTest.php:100-108 | a namespace just configured resolves to the descriptor built from exactly the options it was given and the factory's collaborators |
| `Http.ConfigureFramesOtherNamespaces` | test/Http/ApiFactoryTest.php:152-158 | configuring other namespaces does not change what a namespace resolves to, including failing to resolve |
| `Http.ResolutionIgnoresUrlPrefixAndExtensions` | test/Http/ApiFactoryTest.php:135-150 | two option maps that agree on `paging` and on every non-structural key resolve to the same descriptor, whatever their `url-prefix` and `supported-ext` |
| `Http.ApiV1Scenario` | test/Http/ApiFactoryTest.php:100-108 | `v1` with no options: namespace `v1` and the injected collaborators |
| `Http.DefaultPagingScenario` | test/Http/ApiFactoryTest.php:110-117 | `v1` with no options: paging keys `number` and `size` |
| `Http.PagingScenario` | test/Http/ApiFactoryTest.php:119-133 | `paging: {page: foo, per-page: bar}`: paging keys `foo` and `bar` |
| `Http.OtherOptionsScenario` | test/Http/ApiFactoryTest.php:135-150 | options with `url-prefix`, `supported-ext`, `paging` and `paging-meta`: only `paging-meta` reaches the descriptor |
| `Http.InvalidNamespaceScenario` | test/Http/ApiFactoryTest.php:152-158 | with only `v1` configured, asking for `v2` fails with a message containing `v2` |

## Left out

- Schema repository merging (a `defaults` schema set overridden per namespace): it is
  configured in the factory tests' set-up, but no test asserts on it.
- The codec matcher, the URL prefix and supported extensions inside the descriptor: the
  factory consumes `url-prefix` and `supported-ext`, but no test shows what it builds from them.
- The collaborators' behaviour (store, request interpreter, HTTP factory, codec matcher and
  schema repositories): they are opaque handles that are only passed through.
- JSON parsing, floating-point numbers and PHP's dynamic `stdClass` members: the model starts
  from an already-parsed value, and numbers are integers.
- PHP exception classes: failures are `Err` values. `Http.Message`'s wording is the model's
  own; the tests only require that it contains the namespace.
- Lazy construction of identifiers and collections, and the object identity of the ones
  returned: the model builds them as values on each read. The tests compare them with
  `assertEquals`.
- Objects.Data: a relationship without a `data` member is read as an empty to-one
  relationship, the way a PHP read of a missing member gives null. No test asserts on it.
