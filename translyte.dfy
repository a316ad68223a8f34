/** The resolution engine `Translyte`: a session cache in front of the bundle
    store, with generation from the base language when the store has no bundle.
    `Resolve` and `GenerateAndSave` state what one call does, as functions of
    the state before it; the class's methods are proved to do exactly that. */
module Client {
  import opened Core
  import opened Paths
  import opened Endpoint

  const DefaultApiEndpoint: string := "/api"
  const DefaultBaseLanguage: string := "en"
  const DefaultContext: string := "A web application interface"
  const DefaultNamespace: string := "common"

  /** The constructor's options; `None` is an absent (undefined) option. */
  datatype Options = Options(
    apiEndpoint: Option<string>,
    baseLanguage: Option<string>,
    context: Option<string>,
    pathStructure: Option<string>)

  /** `option || fallback` for a string option: an absent or empty option is falsy. */
  function OrDefault(option: Option<string>, fallback: string): string {
    if option.Some? && option.value != "" then option.value else fallback
  }

  /** The namespace parameter's default applies only when it is not passed at all. */
  function NamespaceOrDefault(namespace: Option<string>): string {
    if namespace.Some? then namespace.value else DefaultNamespace
  }

  /** The configuration fields of a `Translyte` instance. */
  datatype Config = Config(apiEndpoint: string, baseLanguage: string, context: string, pathStructure: string)

  /** `_fetchFromServer`: a non-2xx answer becomes an error carrying its status. */
  function FetchResult(response: FetchResponse, path: string): Result<Bundle, Error> {
    match response
    case FetchOk(body) => Success(body)
    case FetchNotOk(status) => Failure(HttpError(status, path))
    case FetchBroken => Failure(TransportError)
  }

  /** The outcome of `_fetchFromServer(path)` against the store in state `st`. */
  function FetchFrom(st: StoreState, path: string): Result<Bundle, Error> {
    FetchResult(Get(st, path), path)
  }

  /** `_generateViaProxy`: a non-2xx answer becomes an error with the server's
      `error` message, or a fixed message when there is none. */
  function ProxyResult(response: ProxyResponse): Result<Bundle, Error> {
    match response
    case ProxyOk(body) => Success(body)
    case ProxyNotOk(error) =>
      Failure(GenerationError(OrDefault(error, GenerationFallbackMessage)))
    case ProxyBroken => Failure(TransportError)
  }

  /** `_saveToServer`: the answer's status is not examined, so only a write
      request that gets no answer at all fails, and it fails without a status. */
  function SaveResult(st: StoreState, path: string): Result<(), Error> {
    if WriteAnswered(st, path) then Success(()) else Failure(TransportError)
  }

  /** What `_generateAndSaveTranslations` returns and leaves in the store. */
  datatype Generation = Generation(result: Result<Bundle, Error>, store: StoreState)

  /** `_generateAndSaveTranslations(target, namespace)`: read the base-language
      bundle, have it translated, write the translation back and return it.
      A write the server refuses is ignored; a write request that gets no
      answer fails the call, whether or not the server carried it out. Any
      earlier failure ends the call before anything is written. */
  function GenerateAndSave(cfg: Config, st: StoreState, translate: Translator, target: string, namespace: string): Generation {
    match BuildPath(cfg.pathStructure, cfg.baseLanguage, namespace)
    case Failure(e) => Generation(Failure(e), st)
    case Success(basePath) =>
      match FetchFrom(st, basePath)
      case Failure(e) => Generation(Failure(e), st)
      case Success(base) =>
        match ProxyResult(translate(target, base, cfg.context))
        case Failure(e) => Generation(Failure(e), st)
        case Success(translated) =>
          match BuildPath(cfg.pathStructure, target, namespace)
          case Failure(e) => Generation(Failure(e), st)
          case Success(targetPath) =>
            var written := Post(st, targetPath, translated);
            match SaveResult(st, targetPath)
            case Failure(e) => Generation(Failure(e), written)
            case Success(_) => Generation(Success(translated), written)
  }

  /** What `getTranslations` returns, and the cache and store it leaves. */
  datatype Outcome = Outcome(result: Result<Bundle, Error>, cache: map<string, Bundle>, store: StoreState)

  /** `getTranslations(language, namespace)` from session cache `cache` and
      store state `st`: the cache first, then the store, and generation only
      when the store answers 404. */
  function Resolve(cfg: Config, cache: map<string, Bundle>, st: StoreState, translate: Translator,
                   language: string, namespace: string): Outcome
  {
    match BuildPath(cfg.pathStructure, language, namespace)
    case Failure(e) => Outcome(Failure(e), cache, st)
    case Success(key) =>
      if key in cache then Outcome(Success(cache[key]), cache, st)
      else
        match FetchFrom(st, key)
        case Success(bundle) => Outcome(Success(bundle), cache[key := bundle], st)
        case Failure(e) =>
          if !e.IsNotFound() then Outcome(Failure(e), cache, st)
          else
            var g := GenerateAndSave(cfg, st, translate, language, namespace);
            match g.result
            case Success(generated) => Outcome(g.result, cache[key := generated], g.store)
            case Failure(_) => Outcome(g.result, cache, g.store)
  }

  class Translyte {
    var apiEndpoint: string
    var baseLanguage: string
    var context: string
    var pathStructure: string
    /** Resolved path to bundle; entries are added, never removed. */
    var sessionCache: map<string, Bundle>

    function Configuration(): Config
      reads this
    {
      Config(apiEndpoint, baseLanguage, context, pathStructure)
    }

    /** Every option that is absent or empty takes its default; the template is
        not checked here. The cache starts empty. */
    constructor (options: Options)
      ensures apiEndpoint == OrDefault(options.apiEndpoint, DefaultApiEndpoint)
      ensures baseLanguage == OrDefault(options.baseLanguage, DefaultBaseLanguage)
      ensures context == OrDefault(options.context, DefaultContext)
      ensures pathStructure == OrDefault(options.pathStructure, DefaultTemplate)
      ensures sessionCache == map[]
    {
      apiEndpoint := OrDefault(options.apiEndpoint, DefaultApiEndpoint);
      baseLanguage := OrDefault(options.baseLanguage, DefaultBaseLanguage);
      context := OrDefault(options.context, DefaultContext);
      pathStructure := OrDefault(options.pathStructure, DefaultTemplate);
      sessionCache := map[];
    }

    method FetchFromServer(filePath: string, server: Server) returns (r: Result<Bundle, Error>)
      ensures r == FetchFrom(server.state, filePath)
      ensures r.Success? <==> Get(server.state, filePath).FetchOk?
      ensures r.Success? ==> r.value == Get(server.state, filePath).body
      ensures Get(server.state, filePath).FetchNotOk? ==> r == Failure(HttpError(Get(server.state, filePath).status, filePath))
      ensures r.Failure? && r.error.HttpError? ==> r.error.path == filePath && !(200 <= r.error.status < 300)
      ensures (r.Failure? && r.error.IsNotFound()) <==> Get(server.state, filePath) == FetchNotOk(404)
    {
      var response := Get(server.state, filePath);
      if !response.FetchOk? {
        if response.FetchNotOk? {
          return Failure(HttpError(response.status, filePath));
        }
        return Failure(TransportError);
      }
      return Success(response.body);
    }

    method GenerateViaProxy(targetLanguage: string, baseTranslations: Bundle, server: Server)
      returns (r: Result<Bundle, Error>)
      ensures r == ProxyResult(server.translate(targetLanguage, baseTranslations, context))
      ensures r.Success? <==> server.translate(targetLanguage, baseTranslations, context).ProxyOk?
      ensures r.Success? ==> r.value == server.translate(targetLanguage, baseTranslations, context).body
      ensures forall m :: m != "" && server.translate(targetLanguage, baseTranslations, context) == ProxyNotOk(Some(m))
                ==> r == Failure(GenerationError(m))
      ensures r.Failure? && r.error.GenerationError? ==> r.error.message != ""
      ensures r.Failure? ==> !r.error.IsNotFound()
    {
      var response := server.translate(targetLanguage, baseTranslations, context);
      match response
      case ProxyOk(body) =>
        return Success(body);
      case ProxyNotOk(error) =>
        return Failure(GenerationError(OrDefault(error, GenerationFallbackMessage)));
      case ProxyBroken =>
        return Failure(TransportError);
    }

    /** The write's answer is not examined: a refused write is silent, while a
        request that gets no answer fails without a status. */
    method SaveToServer(filePath: string, data: Bundle, server: Server) returns (r: Result<(), Error>)
      modifies server`state
      ensures r == SaveResult(old(server.state), filePath)
      ensures r.Failure? <==> !WriteAnswered(old(server.state), filePath)
      ensures r.Failure? ==> r.error == TransportError
      ensures server.state == Post(old(server.state), filePath, data)
    {
      if !WriteAnswered(server.state, filePath) {
        r := Failure(TransportError);
      } else {
        r := Success(());
      }
      server.state := Post(server.state, filePath, data);
    }

    method GenerateAndSaveTranslations(targetLanguage: string, namespace: string, server: Server)
      returns (r: Result<Bundle, Error>)
      modifies server`state
      ensures Generation(r, server.state)
           == GenerateAndSave(Configuration(), old(server.state), server.translate, targetLanguage, namespace)
      ensures r.Failure? && server.state != old(server.state) ==>
                var targetPath := BuildPath(pathStructure, targetLanguage, namespace);
                r.error == TransportError && targetPath.Success? && OneWriteAt(old(server.state), server.state, targetPath.value)
    {
      var basePath :- BuildPath(pathStructure, baseLanguage, namespace);
      var baseTranslations :- FetchFromServer(basePath, server);
      var newTranslations :- GenerateViaProxy(targetLanguage, baseTranslations, server);
      var targetPath := BuildPath(pathStructure, targetLanguage, namespace);
      if targetPath.Failure? {
        // the template was accepted for the base path, so it is accepted here
        assert false;
      }
      var saved := SaveToServer(targetPath.value, newTranslations, server);
      if saved.Failure? {
        assert server.state == Post(old(server.state), targetPath.value, newTranslations);
        return Failure(saved.error);
      }
      return Success(newTranslations);
    }

    /** `getTranslations(language, namespace)`; `None` stands for an omitted namespace. */
    method GetTranslations(language: string, namespace: Option<string>, server: Server)
      returns (r: Result<Bundle, Error>)
      modifies this`sessionCache, server`state
      ensures Outcome(r, sessionCache, server.state)
           == Resolve(Configuration(), old(sessionCache), old(server.state), server.translate,
                      language, NamespaceOrDefault(namespace))
      ensures forall k :: k in old(sessionCache) ==> k in sessionCache && sessionCache[k] == old(sessionCache)[k]
      ensures r.Failure? ==> sessionCache == old(sessionCache)
    {
      var ns := NamespaceOrDefault(namespace);
      var key :- BuildPath(pathStructure, language, ns);
      if key in sessionCache {
        return Success(sessionCache[key]);
      }
      var translations := FetchFromServer(key, server);
      if translations.Success? {
        sessionCache := sessionCache[key := translations.value];
        return translations;
      }
      if translations.error.IsNotFound() {
        var newTranslations := GenerateAndSaveTranslations(language, ns, server);
        if newTranslations.Failure? {
          return newTranslations;
        }
        sessionCache := sessionCache[key := newTranslations.value];
        return newTranslations;
      }
      return translations;
    }
  }
}
