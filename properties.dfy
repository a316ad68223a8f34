/** What one `getTranslations` call does to its caller's view of the world,
    stated over `Resolve`: cache first, store second, generation only on a 404,
    and a session cache that only ever grows. "X is not called" is stated as
    "the outcome does not depend on X". */
module Resolution {
  import opened Core
  import opened Text
  import opened Paths
  import opened Endpoint
  import opened Client

  /** A template without the language placeholder fails every call with the
      configuration error, before the cache or the store is consulted. */
  lemma ResolveConfigError(cfg: Config, cache: map<string, Bundle>, st: StoreState, translate: Translator,
                           language: string, namespace: string)
    requires !Contains(cfg.pathStructure, LngToken)
    ensures Resolve(cfg, cache, st, translate, language, namespace)
         == Outcome(Failure(ConfigError(ConfigMessage)), cache, st)
  {
    ContainsIff(cfg.pathStructure, LngToken);
  }

  /** Cache hit: the cached bundle is returned, nothing changes, and the store
      and the generator play no part. */
  lemma ResolveCacheHit(cfg: Config, cache: map<string, Bundle>, st: StoreState, translate: Translator,
                        language: string, namespace: string, key: string)
    requires BuildPath(cfg.pathStructure, language, namespace) == Success(key)
    requires key in cache
    ensures Resolve(cfg, cache, st, translate, language, namespace) == Outcome(Success(cache[key]), cache, st)
    ensures forall st': StoreState, translate': Translator ::
              Resolve(cfg, cache, st', translate', language, namespace) == Outcome(Success(cache[key]), cache, st')
  {
  }

  /** Store hit: the stored bundle is cached under the resolved path, returned,
      and the generator plays no part. */
  lemma ResolveStoreHit(cfg: Config, cache: map<string, Bundle>, st: StoreState, translate: Translator,
                        language: string, namespace: string, key: string, bundle: Bundle)
    requires BuildPath(cfg.pathStructure, language, namespace) == Success(key)
    requires key !in cache && Get(st, key) == FetchOk(bundle)
    ensures forall translate': Translator ::
              Resolve(cfg, cache, st, translate', language, namespace)
                == Outcome(Success(bundle), cache[key := bundle], st)
  {
  }

  /** A failed read with any status other than 404, or with no status at all,
      is passed to the caller; nothing changes and the generator plays no part. */
  lemma ResolveNoFallback(cfg: Config, cache: map<string, Bundle>, st: StoreState,
                          language: string, namespace: string, key: string)
    requires BuildPath(cfg.pathStructure, language, namespace) == Success(key)
    requires key !in cache
    requires Get(st, key) == FetchBroken || (Get(st, key).FetchNotOk? && Get(st, key).status != 404)
    ensures forall translate: Translator ::
              Resolve(cfg, cache, st, translate, language, namespace)
                == Outcome(FetchResult(Get(st, key), key), cache, st)
    ensures FetchResult(Get(st, key), key).Failure?
  {
  }

  /** Successful generation: after a 404, the base bundle at the base language's
      path is translated; the translation is written to the resolved path
      (the store keeps it only if the write succeeds), cached there, and returned. */
  lemma ResolveGenerated(cfg: Config, cache: map<string, Bundle>, st: StoreState, translate: Translator,
                         language: string, namespace: string, key: string, basePath: string,
                         base: Bundle, translated: Bundle)
    requires BuildPath(cfg.pathStructure, language, namespace) == Success(key)
    requires BuildPath(cfg.pathStructure, cfg.baseLanguage, namespace) == Success(basePath)
    requires key !in cache && Get(st, key) == FetchNotOk(404)
    requires Get(st, basePath) == FetchOk(base)
    requires translate(language, base, cfg.context) == ProxyOk(translated)
    requires WriteAnswered(st, key)
    ensures Resolve(cfg, cache, st, translate, language, namespace)
         == Outcome(Success(translated), cache[key := translated], Post(st, key, translated))
  {
  }

  /** A write the server refuses does not stop the generated bundle from being
      cached and returned: the store is simply left as it was. */
  lemma ResolveWriteFailureIgnored(cfg: Config, cache: map<string, Bundle>, st: StoreState, translate: Translator,
                                   language: string, namespace: string, key: string, basePath: string,
                                   base: Bundle, translated: Bundle)
    requires BuildPath(cfg.pathStructure, language, namespace) == Success(key)
    requires BuildPath(cfg.pathStructure, cfg.baseLanguage, namespace) == Success(basePath)
    requires key !in cache && Get(st, key) == FetchNotOk(404)
    requires Get(st, basePath) == FetchOk(base)
    requires translate(language, base, cfg.context) == ProxyOk(translated)
    requires key in st.writeFaults && st.writeFaults[key] == Refused
    ensures Resolve(cfg, cache, st, translate, language, namespace)
         == Outcome(Success(translated), cache[key := translated], st)
  {
    ResolveGenerated(cfg, cache, st, translate, language, namespace, key, basePath, base, translated);
  }

  /** A write request that gets no answer fails the whole call without a
      status, although the bundle was generated: nothing is cached or stored. */
  lemma ResolveWriteRejected(cfg: Config, cache: map<string, Bundle>, st: StoreState, translate: Translator,
                             language: string, namespace: string, key: string, basePath: string,
                             base: Bundle, translated: Bundle)
    requires BuildPath(cfg.pathStructure, language, namespace) == Success(key)
    requires BuildPath(cfg.pathStructure, cfg.baseLanguage, namespace) == Success(basePath)
    requires key !in cache && Get(st, key) == FetchNotOk(404)
    requires Get(st, basePath) == FetchOk(base)
    requires translate(language, base, cfg.context) == ProxyOk(translated)
    requires key in st.writeFaults && st.writeFaults[key] == Rejected
    ensures Resolve(cfg, cache, st, translate, language, namespace) == Outcome(Failure(TransportError), cache, st)
  {
  }

  /** A write the server carried out but whose answer was lost fails the call
      without a status, yet the store now holds the generated bundle: the
      cache is unchanged, and a retry is served from the store. */
  lemma ResolveWriteLost(cfg: Config, cache: map<string, Bundle>, st: StoreState, translate: Translator,
                         language: string, namespace: string, key: string, basePath: string,
                         base: Bundle, translated: Bundle)
    requires BuildPath(cfg.pathStructure, language, namespace) == Success(key)
    requires BuildPath(cfg.pathStructure, cfg.baseLanguage, namespace) == Success(basePath)
    requires key !in cache && key !in st.readFaults && key !in st.files
    requires Get(st, basePath) == FetchOk(base)
    requires translate(language, base, cfg.context) == ProxyOk(translated)
    requires key in st.writeFaults && st.writeFaults[key] == Lost
    ensures Resolve(cfg, cache, st, translate, language, namespace)
         == Outcome(Failure(TransportError), cache, Post(st, key, translated))
    ensures forall translate': Translator ::
              Resolve(cfg, cache, Post(st, key, translated), translate', language, namespace)
                == Outcome(Success(translated), cache[key := translated], Post(st, key, translated))
  {
    assert Get(st, key) == FetchNotOk(404);
    assert Get(Post(st, key, translated), key) == FetchOk(translated);
  }

  /** After a 404, a failed read of the base bundle (a 404 included) is passed
      to the caller; nothing is generated, written or cached. */
  lemma ResolveBaseMissing(cfg: Config, cache: map<string, Bundle>, st: StoreState,
                           language: string, namespace: string, key: string, basePath: string)
    requires BuildPath(cfg.pathStructure, language, namespace) == Success(key)
    requires BuildPath(cfg.pathStructure, cfg.baseLanguage, namespace) == Success(basePath)
    requires key !in cache && Get(st, key) == FetchNotOk(404)
    requires !Get(st, basePath).FetchOk?
    ensures forall translate: Translator ::
              Resolve(cfg, cache, st, translate, language, namespace)
                == Outcome(FetchResult(Get(st, basePath), basePath), cache, st)
    ensures FetchResult(Get(st, basePath), basePath).Failure?
  {
  }

  /** After a 404, a refused or failed generation is passed to the caller;
      nothing is written or cached. */
  lemma ResolveGenerationFails(cfg: Config, cache: map<string, Bundle>, st: StoreState, translate: Translator,
                               language: string, namespace: string, key: string, basePath: string, base: Bundle)
    requires BuildPath(cfg.pathStructure, language, namespace) == Success(key)
    requires BuildPath(cfg.pathStructure, cfg.baseLanguage, namespace) == Success(basePath)
    requires key !in cache && Get(st, key) == FetchNotOk(404)
    requires Get(st, basePath) == FetchOk(base)
    requires !translate(language, base, cfg.context).ProxyOk?
    ensures Resolve(cfg, cache, st, translate, language, namespace)
         == Outcome(ProxyResult(translate(language, base, cfg.context)), cache, st)
    ensures ProxyResult(translate(language, base, cfg.context)).Failure?
  {
  }

  /** The store is written only after a 404 for the resolved path. */
  lemma ResolveWritesOnlyAfterNotFound(cfg: Config, cache: map<string, Bundle>, st: StoreState,
                                                          translate: Translator, language: string, namespace: string)
    ensures var o := Resolve(cfg, cache, st, translate, language, namespace);
            o.store != st ==>
              var path := BuildPath(cfg.pathStructure, language, namespace);
              && path.Success? && path.value !in cache && Get(st, path.value) == FetchNotOk(404)
              && OneWriteAt(st, o.store, path.value)
              && (o.result.Success? ==> o.store == Post(st, path.value, o.result.value))
              && (o.result.Failure? ==> o.result.error == TransportError)
  {
    ResolveCacheGrows(cfg, cache, st, translate, language, namespace);
  }

  /** A generated bundle written where the store accepts the write is what the
      next session (a fresh cache) is served from the store, without generating. */
  lemma NextSessionReadsGenerated(cfg: Config, cache: map<string, Bundle>, st: StoreState,
                                                     translate: Translator, language: string, namespace: string,
                                                     key: string, translate': Translator)
    requires BuildPath(cfg.pathStructure, language, namespace) == Success(key)
    requires key !in st.readFaults && key !in st.writeFaults
    requires key !in cache && Get(st, key) == FetchNotOk(404)
    requires Resolve(cfg, cache, st, translate, language, namespace).result.Success?
    ensures var o := Resolve(cfg, cache, st, translate, language, namespace);
            Resolve(cfg, map[], o.store, translate', language, namespace)
              == Outcome(o.result, map[key := o.result.value], o.store)
  {
    ResolveCacheGrows(cfg, cache, st, translate, language, namespace);
    var o := Resolve(cfg, cache, st, translate, language, namespace);
    assert o.store == Post(st, key, o.result.value);
    PostThenGet(st, key, o.result.value);
  }

  /** The base language itself is never generated: its own path is the base
      path, so a 404 for it is a 404 for the base bundle. Nothing is ever
      written, and success means a cache or store hit. */
  lemma ResolveBaseLanguageNeverGenerated(cfg: Config, cache: map<string, Bundle>, st: StoreState,
                                                             translate: Translator, namespace: string)
    ensures var o := Resolve(cfg, cache, st, translate, cfg.baseLanguage, namespace);
            && o.store == st
            && (o.result.Success? ==>
                  var key := BuildPath(cfg.pathStructure, cfg.baseLanguage, namespace).value;
                  key in cache || Get(st, key).FetchOk?)
  {
    var path := BuildPath(cfg.pathStructure, cfg.baseLanguage, namespace);
    if path.Success? && path.value !in cache && FetchFrom(st, path.value).Failure? {
      var g := GenerateAndSave(cfg, st, translate, cfg.baseLanguage, namespace);
      assert g.result == FetchFrom(st, path.value);
    }
  }

  /** The session cache only grows: existing entries keep their bundles, the
      only key that can appear is the resolved path, it appears exactly when the
      call succeeds, and it then holds the returned bundle. The store changes
      at most by one write of the returned bundle at the resolved path. */
  lemma ResolveCacheGrows(cfg: Config, cache: map<string, Bundle>, st: StoreState,
                                             translate: Translator, language: string, namespace: string)
    ensures var o := Resolve(cfg, cache, st, translate, language, namespace);
            && (forall k :: k in cache ==> k in o.cache && o.cache[k] == cache[k])
            && (o.result.Failure? ==>
                  && o.cache == cache
                  && (o.store == st
                      || (&& o.result.error == TransportError
                          && BuildPath(cfg.pathStructure, language, namespace).Success?
                          && OneWriteAt(st, o.store, BuildPath(cfg.pathStructure, language, namespace).value))))
            && (o.result.Success? ==>
                  var key := BuildPath(cfg.pathStructure, language, namespace).value;
                  && BuildPath(cfg.pathStructure, language, namespace).Success?
                  && o.cache.Keys == cache.Keys + {key}
                  && o.cache[key] == o.result.value
                  && (o.store == st || o.store == Post(st, key, o.result.value)))
  {
    var path := BuildPath(cfg.pathStructure, language, namespace);
    if path.Success? && path.value !in cache && FetchFrom(st, path.value).Failure?
       && FetchFrom(st, path.value).error.IsNotFound() {
      var g := GenerateAndSave(cfg, st, translate, language, namespace);
      var basePath := BuildPath(cfg.pathStructure, cfg.baseLanguage, namespace);
      assert basePath.Success?;
      if g.store != st {
        var base := FetchFrom(st, basePath.value).value;
        var translated := ProxyResult(translate(language, base, cfg.context)).value;
        assert g.store == Post(st, path.value, translated);
      }
    }
  }

  /** Warm path: once a call has succeeded, repeating it returns the same bundle
      and changes nothing, whatever the store and the generator now do. */
  lemma ResolveWarm(cfg: Config, cache: map<string, Bundle>, st: StoreState, translate: Translator,
                                       language: string, namespace: string, st': StoreState, translate': Translator)
    requires Resolve(cfg, cache, st, translate, language, namespace).result.Success?
    ensures var o := Resolve(cfg, cache, st, translate, language, namespace);
            Resolve(cfg, o.cache, st', translate', language, namespace) == Outcome(o.result, o.cache, st')
  {
    ResolveCacheGrows(cfg, cache, st, translate, language, namespace);
    var key := BuildPath(cfg.pathStructure, language, namespace).value;
    var o := Resolve(cfg, cache, st, translate, language, namespace);
    assert key in o.cache && o.cache[key] == o.result.value;
  }

  function DefaultConfig(): Config {
    Config(DefaultApiEndpoint, DefaultBaseLanguage, DefaultContext, DefaultTemplate)
  }

  /** Where the default template puts a bundle. */
  function DefaultPath(language: string, namespace: string): string {
    language + "/" + namespace + ".json"
  }

  /** Cold start with the default settings: an empty cache, a store holding
      only the base-language bundle of the namespace, and a generator that
      translates it. The translation is returned, written next to the base
      bundle at `<language>/<namespace>.json`, and cached under that path. */
  lemma ColdStart(language: string, namespace: string, base: Bundle, translated: Bundle, translate: Translator)
    requires '{' !in language && '/' !in language && language != DefaultBaseLanguage
    requires translate(language, base, DefaultContext) == ProxyOk(translated)
    ensures var basePath, path := DefaultPath(DefaultBaseLanguage, namespace), DefaultPath(language, namespace);
            Resolve(DefaultConfig(), map[], StoreState(map[basePath := base], map[], map[]), translate, language, namespace)
              == Outcome(Success(translated), map[path := translated],
                         StoreState(map[basePath := base, path := translated], map[], map[]))
  {
    var basePath, path := DefaultPath(DefaultBaseLanguage, namespace), DefaultPath(language, namespace);
    var st := StoreState(map[basePath := base], map[], map[]);
    BuildPathDefault(language, namespace);
    BuildPathDefault(DefaultBaseLanguage, namespace);
    assert path != basePath by {
      if path == basePath {
        BuildPathDefaultInjective(language, namespace, DefaultBaseLanguage, namespace);
      }
    }
    ResolveGenerated(DefaultConfig(), map[], st, translate, language, namespace, path, basePath, base, translated);
    assert st.files[path := translated] == map[basePath := base, path := translated];
  }

  /** Warm path after the cold start: asking again is answered from the cache
      and changes nothing, whatever the store and the generator now do. */
  lemma ColdStartThenWarm(language: string, namespace: string, base: Bundle, translated: Bundle,
                          translate: Translator, st': StoreState, translate': Translator)
    requires '{' !in language && '/' !in language && language != DefaultBaseLanguage
    requires translate(language, base, DefaultContext) == ProxyOk(translated)
    ensures var st := StoreState(map[DefaultPath(DefaultBaseLanguage, namespace) := base], map[], map[]);
            var o := Resolve(DefaultConfig(), map[], st, translate, language, namespace);
            Resolve(DefaultConfig(), o.cache, st', translate', language, namespace) == Outcome(Success(translated), o.cache, st')
  {
    ColdStart(language, namespace, base, translated, translate);
    var st := StoreState(map[DefaultPath(DefaultBaseLanguage, namespace) := base], map[], map[]);
    ResolveWarm(DefaultConfig(), map[], st, translate, language, namespace, st', translate');
  }
}
