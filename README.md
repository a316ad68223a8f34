# Translyte resolution engine, modelled in Dafny

Translyte is a browser-side client that hands an application the translation
bundle for a language and a namespace. The client builds a path from a
template, such as `{{lng}}/{{ns}}.json`. It then looks in a per-instance
session cache. On a miss it reads the bundle from the translation server.
When the server answers 404, it takes the base language's bundle, asks the
server's generation endpoint to translate it, and writes the result back to
the store. It then caches the result and returns it.

This project models the `Translyte` class of `translyte.js` and proves what one
call does to the returned value, the session cache and the store.

- `core.dfy` (module `Core`): `Result`, `Option`, the `Bundle` type (key to
  text) and the errors a call can end in. `ConfigError` is the template error.
  `HttpError` is a non-2xx read and carries its status. `TransportError` is a
  request with no usable answer. `GenerationError` is a refused generation.
- `text.dfy` (module `Text`): `includes` and a literal global `replace`. They
  are written as scanning functions, with lemmas that tie them to an
  index-based meaning.
- `paths.dfy` (module `Paths`): `_buildPath`, as `BuildPath(template,
  language, namespace)`.
- `endpoint.dfy` (module `Endpoint`): the server, seen only through its
  answers. The store is a map from path to bundle. Two fault tables list the
  paths whose reads fail (with a status or with no answer) and the paths whose
  writes fail: refused with a status (nothing kept, the client does not look), rejected before reaching the server, or carried out by the server with the answer lost. The generation endpoint is an arbitrary `Translator` function.
  It maps (target language, base bundle, context) to a bundle, a refusal with
  an optional `error` message, or no usable answer.
- `translyte.dfy` (module `Client`): two pure specification functions.
  `Resolve` describes one `getTranslations` call and `GenerateAndSave`
  describes one `_generateAndSaveTranslations` call. The class
  `Client.Translyte` has the source's fields, including `sessionCache: map<string,
  Bundle>`. Each of its methods is proved equal to the matching specification.
- `properties.dfy` (module `Resolution`): lemmas about `Resolve`. "X is not
  called" is stated as "the outcome is the same whatever X does".

Behaviour of the code worth knowing:

- The template is checked for `{{lng}}` on every `_buildPath` call, not at
  construction. So a bad template fails each `getTranslations` call with the
  configuration error, before the cache is consulted.
- Path resolution is not injective, even with the default template. The
  requests ("a/b", "c") and ("a", "b/c") share the path `a/b/c.json`, and so
  share one store entry and one cache entry (`Paths.BuildPathCollision`).
  Injectivity holds only for languages without `/` or `{`
  (`Paths.BuildPathDefaultInjective`).
- Options use `||`. An empty string option therefore takes the default, just
  like an absent one. The namespace default `'common'` applies only when the
  argument is omitted or `undefined` (the model's `None`).
- Language placeholders are replaced before namespace placeholders. A language
  that spells `{{ns}}` therefore receives the namespace
  (`Paths.BuildPathLanguageFirst`).

## Model

| member | source | states |
|---|---|---|
| Paths.BuildPath | translyte.js:10-16 | fails with the configuration error exactly when the template has no occurrence of `{{lng}}`, whatever the language and namespace |
| Text.ContainsIff | translyte.js:11 | the scan used for `includes` is true exactly when the pattern occurs at some index (both directions) |
| Text.ReplaceAllAbsent | translyte.js:15-16 | a global replace leaves a string without the pattern unchanged |
| Text.ReplaceAllLength | translyte.js:15-16 | each of the replaced non-overlapping occurrences changes the length by the replacement's length minus the pattern's |
| Text.CountPositiveIff | translyte.js:15-16 | something is replaced exactly when the pattern occurs |
| Text.ReplaceAllPrefix | translyte.js:15-16 | a prefix without the pattern's first character passes through, and the rest is replaced independently |
| Paths.BuildPathShape | translyte.js:14-16 | for a template `a{{lng}}b{{ns}}c` with brace-free parts and language, the path is `a + language + b + namespace + c` |
| Paths.BuildPathDefault | translyte.js:6 | with the default template, a brace-free language resolves to `language/namespace.json` |
| Paths.BuildPathDefaultInjective | translyte.js:14-16 | with the default template, languages without `/` or `{` give distinct paths to distinct (language, namespace) pairs |
| Paths.BuildPathCollision | translyte.js:14-16 | two different requests can resolve to the same path, so path resolution is not injective in general |
| Paths.BuildPathLanguageFirst | translyte.js:15-16 | `{{lng}}` is substituted before `{{ns}}`, so a language spelling `{{ns}}` takes the namespace |
| Client.Translyte.constructor | translyte.js:2-8 | every absent or empty option takes its default (`/api`, `en`, the context text, `{{lng}}/{{ns}}.json`); the cache starts empty; the template is not checked |
| Client.Translyte.FetchFromServer | translyte.js:39-47 | succeeds exactly when the answer is 2xx, with the answer's bundle; a non-2xx answer fails with an error carrying that very status and the path; the error is a not-found exactly when the answer was 404; a request with no usable answer fails without a status |
| Client.Translyte.GenerateViaProxy | translyte.js:58-73 | the target language, base bundle and configured context go to the generator; it succeeds exactly on a 2xx answer, with that bundle; a refusal fails with the server's `error` text when it is non-empty and the fixed fallback message otherwise; a failure never looks like a not-found |
| Client.Translyte.SaveToServer | translyte.js:75-81 | the answer's status is not examined: it fails, without a status, exactly when the request gets no answer; the store is then unchanged if the request never reached the server and holds the bundle if the server wrote it; a refused write is silent and changes nothing |
| Client.Translyte.GenerateAndSaveTranslations | translyte.js:49-56 | equals `GenerateAndSave`: base read, generation, write at the target path, in that order; any failure fails the call; a failed call changes the store only when its write request got no answer, and then at most by one write at the target path |
| Client.Translyte.GetTranslations | translyte.js:19-37 | equals `Resolve` on the old cache and store; existing cache entries are kept with their bundles; a failed call, including one whose write request got no answer, leaves the cache unchanged |
| Resolution.ResolveConfigError | translyte.js:20 | a template without `{{lng}}` fails every call with the configuration error, and the cache and store are unchanged |
| Resolution.ResolveCacheHit | translyte.js:21-23 | a cached path returns the cached bundle and changes nothing, for every store and generator |
| Resolution.ResolveStoreHit | translyte.js:24-27 | a successful read caches the bundle at the resolved path, returns it, and is the same for every generator |
| Resolution.ResolveNoFallback | translyte.js:28-35 | a read failing with a status other than 404, or without a status, is returned as it is; the cache and store are unchanged, for every generator |
| Resolution.ResolveGenerated | translyte.js:29-33 | after a 404, the base bundle at the base language's path is translated, written at the resolved path (a write request that gets an answer), cached there and returned |
| Resolution.ResolveWriteFailureIgnored | translyte.js:75-81 | a write the server refuses still caches and returns the generated bundle, and the store is unchanged |
| Resolution.ResolveWriteRejected | translyte.js:31-33 | a write request that never reaches the server fails the call without a status; nothing is cached or stored |
| Resolution.ResolveWriteLost | translyte.js:31-33 | a write the server carried out but whose answer was lost fails the call without a status and caches nothing, yet the store holds the bundle, and a retry is served from the store |
| Resolution.ResolveBaseMissing | translyte.js:50-51 | after a 404, a failed base read, including a 404, is returned as it is; nothing is generated, written or cached, for every generator |
| Resolution.ResolveGenerationFails | translyte.js:52 | after a 404, a refused or failed generation is returned as an error; nothing is written or cached |
| Resolution.ResolveWritesOnlyAfterNotFound | translyte.js:28-33 | the store changes only after a 404 for the uncached resolved path, by one write there; on success the written bundle is the returned one, and a failed call that still wrote failed without a status |
| Resolution.ResolveBaseLanguageNeverGenerated | translyte.js:29-31 | a request for the base language never writes to the store, and it succeeds only from the cache or the store |
| Resolution.ResolveCacheGrows | translyte.js:26 | the cache only grows: old entries keep their bundles; only the resolved path is added, exactly on success, holding the returned bundle; the store changes at most by one write at the resolved path, and a failed call changes it only when it failed without a status |
| Resolution.ResolveWarm | translyte.js:21-23 | once a call has succeeded, repeating it returns the same bundle and changes nothing, whatever the store and generator now do |
| Resolution.NextSessionReadsGenerated | translyte.js:24-27 | a generated bundle whose write succeeded is served from the store to a fresh cache, without generation |
| Resolution.ColdStart | translyte.js:19-33 | default settings, empty cache, only the base bundle stored: the translation is returned, written at `language/namespace.json` beside the base bundle, and cached there |
| Resolution.ColdStartThenWarm | translyte.js:21-23 | after that cold start, the same request is answered from the cache with no change |
| Endpoint.PostThenGet | server.js:78-80 | a bundle written where reads and writes succeed is read back as written |
| Endpoint.PostElsewhere | server.js:78-80 | in the abstract store, a write leaves every other path's answer unchanged |

## Left out

- The HTTP server (`server.js`) is not modelled. Its routes, path containment
  check, file system calls and the outbound request to the translation model
  are reduced to the abstract store (a map plus read and write fault tables)
  and an arbitrary `Translator` function. The store's 404 for a missing file
  is kept.
- Network I/O, `response.json()` and `JSON.stringify` are left out. A fetch
  is one of three outcomes: a bundle, a non-2xx status, or no usable answer.
  Bundles are flat string-to-string maps, not arbitrary JSON.
- Paths.BuildPath: the replacement is literal. JavaScript's `$` patterns in a
  replacement string (`$&`, `$$`, and the others) are not expanded. The model
  agrees with the source only when the language and namespace contain no `$`.
- Values that are not strings are not modelled. Language, namespace and
  options are strings or absent, so JavaScript's coercion of other values
  (`undefined` spelled into a path, say) is not covered.
- Concurrency is not modelled. Each `getTranslations` call is atomic and
  sequential. Two overlapping calls for the same missing bundle can both
  generate and both write, and the model does not capture that.
- The generator is a fixed function for the server's
  lifetime. The same request always gets the same answer, although the real
  endpoint is nondeterministic. No lemma relies on repeated generator calls.
- The `apiEndpoint` field is kept and set by the constructor, but it only
  prefixes request URLs, so no contract about a call depends on it.
- Whether a write request with no answer reached the server is fixed per path
  by the write-fault table (`Rejected` or `Lost`), not chosen anew on each
  request. The client cannot tell the two apart, and both fail the call the
  same way.
- Returned bundles are values. In the source a cache hit returns the very
  object stored in the session cache, so a caller that mutates a returned
  bundle changes what later hits return. The model does not capture that
  aliasing: "the same bundle" in `Resolution.ResolveWarm` means the same
  contents, not the same object.
- Paths are not normalised. The abstract store is keyed by the raw path text,
  while the server resolves paths with `path.join`. So `fr/common.json` and
  `fr/./common.json` (language `fr/.`) name one file on the server, but two
  store entries and two cache entries in the model. `Endpoint.PostElsewhere`
  holds for the abstract store only.
- Console logging is not modelled.
