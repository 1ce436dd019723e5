/**
 The API factory: a registry of per-namespace (per API version) configuration that
 resolves a namespace into an API descriptor carrying the injected collaborators, a
 paging strategy and the namespace's remaining free-form options.
 */
module Http {
  import opened Results
  import opened Json

  /** The identity of a collaborator injected from outside (store, request interpreter,
      HTTP factory, codec matcher and schema repositories). Two handles are the same
      object exactly when they are equal. */
  datatype Handle = Handle(id: nat)

  /** The options of one namespace, as a PHP string-keyed array. A nested string-keyed
      array (such as the `paging` option) is represented as a `Json.Value.Object`. */
  type Options = map<string, Value>

  const UrlPrefixKey: string := "url-prefix"
  const SupportedExtKey: string := "supported-ext"
  const PagingKey: string := "paging"
  const PageKey: string := "page"
  const PerPageKey: string := "per-page"

  /** Option keys the factory consumes itself; every other key is passed through. */
  const StructuralKeys: set<string> := {UrlPrefixKey, SupportedExtKey, PagingKey}

  const DefaultPage: string := "number"
  const DefaultPerPage: string := "size"

  /** The query-parameter names used for the page number and the page size. */
  datatype PagingStrategy = PagingStrategy(page: string, perPage: string)

  /** The factory: its collaborators and the configuration registered so far. */
  datatype ApiFactory = ApiFactory(
    codecMatchers: Handle,
    schemas: Handle,
    store: Handle,
    requestInterpreter: Handle,
    httpFactory: Handle,
    config: map<string, Options>)

  /** The API descriptor `createApi` returns. */
  datatype Api = Api(
    namespace: string,
    store: Handle,
    requestInterpreter: Handle,
    httpFactory: Handle,
    pagingStrategy: PagingStrategy,
    options: Options)

  /** `createApi` on a namespace nobody configured is a runtime error naming it. */
  datatype FactoryError = UnknownNamespace(namespace: string)

  /** `new ApiFactory(...)`: no namespace is configured yet. */
  function NewFactory(codecMatchers: Handle, schemas: Handle, store: Handle,
                      requestInterpreter: Handle, httpFactory: Handle): (f: ApiFactory)
    ensures f.config == map[]
    ensures f.codecMatchers == codecMatchers && f.schemas == schemas && f.store == store
    ensures f.requestInterpreter == requestInterpreter && f.httpFactory == httpFactory
  {
    ApiFactory(codecMatchers, schemas, store, requestInterpreter, httpFactory, map[])
  }

  /** `configure`: registers namespaces; a namespace given again takes its new options. */
  function Configure(f: ApiFactory, config: map<string, Options>): (g: ApiFactory)
    ensures g.config.Keys == f.config.Keys + config.Keys
    ensures forall ns :: ns in config ==> g.config[ns] == config[ns]
    ensures forall ns :: ns in f.config && ns !in config ==> g.config[ns] == f.config[ns]
    ensures g.codecMatchers == f.codecMatchers && g.schemas == f.schemas && g.store == f.store
    ensures g.requestInterpreter == f.requestInterpreter && g.httpFactory == f.httpFactory
  {
    f.(config := f.config + config)
  }

  /** The string a namespace's `paging` option gives for `key`, if it gives one. */
  function PagingSetting(options: Options, key: string): Option<string>
  {
    if PagingKey in options && options[PagingKey].Object?
       && key in options[PagingKey].members && options[PagingKey].members[key].Str?
    then Some(options[PagingKey].members[key].s)
    else None
  }

  /** The paging strategy of a namespace: each key the `paging` option sets replaces its default. */
  function CreatePagingStrategy(options: Options): (p: PagingStrategy)
    ensures PagingKey !in options ==> p == PagingStrategy(DefaultPage, DefaultPerPage)
    ensures PagingSetting(options, PageKey).Some? ==> p.page == PagingSetting(options, PageKey).value
    ensures PagingSetting(options, PageKey).None? ==> p.page == DefaultPage
    ensures PagingSetting(options, PerPageKey).Some? ==> p.perPage == PagingSetting(options, PerPageKey).value
    ensures PagingSetting(options, PerPageKey).None? ==> p.perPage == DefaultPerPage
  {
    var page := PagingSetting(options, PageKey);
    var perPage := PagingSetting(options, PerPageKey);
    PagingStrategy(
      if page.Some? then page.value else DefaultPage,
      if perPage.Some? then perPage.value else DefaultPerPage)
  }

  /** The namespace's options without the keys the factory consumes. */
  function PassThroughOptions(options: Options): (rest: Options)
    ensures rest.Keys == options.Keys - StructuralKeys
    ensures forall k :: k in rest ==> rest[k] == options[k]
  {
    options - StructuralKeys
  }

  /** `createApi`: the descriptor of a configured namespace, or an error naming an unknown one. */
  function CreateApi(f: ApiFactory, namespace: string): (a: Result<Api, FactoryError>)
    ensures a.Err? <==> namespace !in f.config
    ensures a.Err? ==> a.error == UnknownNamespace(namespace)
    ensures a.Ok? ==> a.value.namespace == namespace
    ensures a.Ok? ==> a.value.store == f.store
    ensures a.Ok? ==> a.value.requestInterpreter == f.requestInterpreter
    ensures a.Ok? ==> a.value.httpFactory == f.httpFactory
    ensures a.Ok? ==> a.value.pagingStrategy == CreatePagingStrategy(f.config[namespace])
    ensures a.Ok? ==> a.value.options.Keys == f.config[namespace].Keys - StructuralKeys
    ensures a.Ok? ==> forall k :: k in a.value.options ==> a.value.options[k] == f.config[namespace][k]
  {
    if namespace !in f.config then
      Err(UnknownNamespace(namespace))
    else
      var options := f.config[namespace];
      Ok(Api(namespace, f.store, f.requestInterpreter, f.httpFactory,
             CreatePagingStrategy(options), PassThroughOptions(options)))
  }

  // ---------------------------------------------------------------------------
  // Error messages
  // ---------------------------------------------------------------------------

  /** `word` occurs in `text` as a contiguous piece. */
  predicate Mentions(text: string, word: string)
  {
    exists i :: 0 <= i <= |text| && word <= text[i..]
  }

  /** The message of the runtime exception raised for a factory error. */
  function Message(e: FactoryError): string
  {
    "Unknown JSON API namespace '" + e.namespace + "'."
  }

  /** The exception message of an unknown-namespace error names that namespace. */
  lemma MessageNamesNamespace(e: FactoryError)
    ensures Mentions(Message(e), e.namespace)
  {
    var prefix := "Unknown JSON API namespace '";
    var m := Message(e);
    assert e.namespace <= m[|prefix|..];
  }

  /** Asking for a namespace that is not configured fails with a message naming it. */
  lemma UnknownNamespaceIsReported(f: ApiFactory, namespace: string)
    requires namespace !in f.config
    ensures CreateApi(f, namespace).Err?
    ensures Mentions(Message(CreateApi(f, namespace).error), namespace)
  {
    MessageNamesNamespace(UnknownNamespace(namespace));
  }

  // ---------------------------------------------------------------------------
  // Properties of resolution
  // ---------------------------------------------------------------------------

  /** The structural part of a namespace's options. */
  function StructuralOptions(options: Options): Options
  {
    map k | k in options && k in StructuralKeys :: options[k]
  }

  /** The descriptor's options and the structural keys split a namespace's options exactly:
      together they rebuild it, and they share no key. */
  lemma OptionsPartition(f: ApiFactory, namespace: string)
    requires namespace in f.config
    ensures CreateApi(f, namespace).Ok?
    ensures CreateApi(f, namespace).value.options.Keys !! StructuralOptions(f.config[namespace]).Keys
    ensures CreateApi(f, namespace).value.options + StructuralOptions(f.config[namespace]) == f.config[namespace]
  {
    var options := f.config[namespace];
    var rebuilt := CreateApi(f, namespace).value.options + StructuralOptions(options);
    assert rebuilt.Keys == options.Keys;
    assert forall k :: k in rebuilt ==> rebuilt[k] == options[k];
  }

  /** Whatever collaborators a factory is built with, every namespace it resolves hands back
      exactly those instances. */
  lemma CollaboratorsPassThrough(codecMatchers: Handle, schemas: Handle, store: Handle,
                                 requestInterpreter: Handle, httpFactory: Handle,
                                 config: map<string, Options>, namespace: string)
    requires namespace in config
    ensures var a := CreateApi(Configure(NewFactory(codecMatchers, schemas, store, requestInterpreter, httpFactory), config), namespace);
            && a.Ok?
            && a.value.namespace == namespace
            && a.value.store == store
            && a.value.requestInterpreter == requestInterpreter
            && a.value.httpFactory == httpFactory
  {
  }

  /** Any paging strategy is reproduced by a `paging` option that names both of its keys. */
  lemma PagingRoundTrip(options: Options, p: PagingStrategy)
    ensures CreatePagingStrategy(options[PagingKey := Object(map[PageKey := Str(p.page), PerPageKey := Str(p.perPage)])]) == p
  {
  }

  /** A namespace just configured resolves from exactly the options it was given. */
  lemma ConfigureThenCreate(f: ApiFactory, config: map<string, Options>, namespace: string)
    requires namespace in config
    ensures CreateApi(Configure(f, config), namespace).Ok?
    ensures CreateApi(Configure(f, config), namespace).value
         == Api(namespace, f.store, f.requestInterpreter, f.httpFactory,
                CreatePagingStrategy(config[namespace]), PassThroughOptions(config[namespace]))
  {
  }

  /** Configuring other namespaces does not change how a namespace resolves. */
  lemma ConfigureFramesOtherNamespaces(f: ApiFactory, config: map<string, Options>, namespace: string)
    requires namespace !in config
    ensures CreateApi(Configure(f, config), namespace) == CreateApi(f, namespace)
  {
  }

  /** The descriptor does not depend on the namespace's structural options beyond paging:
      two option maps that agree off the structural keys and on paging resolve alike. */
  lemma ResolutionIgnoresUrlPrefixAndExtensions(f: ApiFactory, namespace: string, other: Options)
    requires namespace in f.config
    requires PassThroughOptions(other) == PassThroughOptions(f.config[namespace])
    requires (PagingKey in other) == (PagingKey in f.config[namespace])
    requires PagingKey in other ==> other[PagingKey] == f.config[namespace][PagingKey]
    ensures CreateApi(f.(config := f.config[namespace := other]), namespace) == CreateApi(f, namespace)
  {
    var options := f.config[namespace];
    assert PagingSetting(other, PageKey) == PagingSetting(options, PageKey);
    assert PagingSetting(other, PerPageKey) == PagingSetting(options, PerPageKey);
  }

  // ---------------------------------------------------------------------------
  // The scenarios of the factory tests
  // ---------------------------------------------------------------------------

  /** The factory of the tests' set-up, with distinct collaborators. */
  function TestFactory(): ApiFactory
  {
    NewFactory(Handle(1), Handle(2), Handle(3), Handle(4), Handle(5))
  }

  /** `v1` with no options: the namespace and the injected collaborators come back. */
  lemma ApiV1Scenario()
    ensures var a := CreateApi(Configure(TestFactory(), map["v1" := map[]]), "v1");
            && a.Ok?
            && a.value.namespace == "v1"
            && a.value.store == Handle(3)
            && a.value.requestInterpreter == Handle(4)
            && a.value.httpFactory == Handle(5)
  {
  }

  /** Without a `paging` option the strategy uses `number` and `size`. */
  lemma DefaultPagingScenario()
    ensures var a := CreateApi(Configure(TestFactory(), map["v1" := map[]]), "v1");
            a.Ok? && a.value.pagingStrategy == PagingStrategy("number", "size")
  {
  }

  /** `paging: {page: foo, per-page: bar}` gives exactly those keys. */
  lemma PagingScenario()
    ensures var options := map[PagingKey := Object(map[PageKey := Str("foo"), PerPageKey := Str("bar")])];
            var a := CreateApi(Configure(TestFactory(), map["v1" := options]), "v1");
            a.Ok? && a.value.pagingStrategy == PagingStrategy("foo", "bar")
  {
  }

  /** Only the non-structural options reach the descriptor. */
  lemma OtherOptionsScenario()
    ensures var expected := map["paging-meta" := Object(map["key" := Str("page")])];
            var options := map[UrlPrefixKey := Str("/api/v1"), SupportedExtKey := Null,
                               PagingKey := Object(map[PageKey := Str("foo")])] + expected;
            var a := CreateApi(Configure(TestFactory(), map["v1" := options]), "v1");
            a.Ok? && a.value.options == expected
  {
    var expected := map["paging-meta" := Object(map["key" := Str("page")])];
    var options := map[UrlPrefixKey := Str("/api/v1"), SupportedExtKey := Null,
                       PagingKey := Object(map[PageKey := Str("foo")])] + expected;
    assert PassThroughOptions(options).Keys == expected.Keys;
  }

  /** Asking for `v2` when only `v1` is configured fails, naming `v2`. */
  lemma InvalidNamespaceScenario()
    ensures var a := CreateApi(Configure(TestFactory(), map["v1" := map[]]), "v2");
            a.Err? && Mentions(Message(a.error), "v2")
  {
    UnknownNamespaceIsReported(Configure(TestFactory(), map["v1" := map[]]), "v2");
  }
}
