/** The server behind `apiEndpoint`, seen only through the answers the client
    can receive. The bundle store is a map from path to bundle plus two fault
    tables (paths whose reads or writes fail); the generation endpoint is an
    arbitrary function of the request it is sent. */
module Endpoint {
  import opened Core

  /** A status for which `response.ok` is false. */
  type FailureStatus = c: int | c < 200 || 300 <= c witness 404

  /** Why a read of a stored bundle fails, when the path is in the read-fault table. */
  datatype Fault =
    | Status(code: FailureStatus)   // e.g. 403 for a path outside the store, 500
    | Unreachable                   // the request was rejected or the body was not JSON

  /** Why a write of a bundle fails, when the path is in the write-fault table. */
  datatype WriteFault =
    | Refused    // the server answered with a non-2xx status and kept nothing; the client does not look
    | Rejected   // the request never reached the server (server unreachable)
    | Lost       // the server wrote the bundle, but its answer never reached the client

  /** What a `GET <endpoint>/translations/<path>` yields to the client. */
  datatype FetchResponse =
    | FetchOk(body: Bundle)
    | FetchNotOk(status: FailureStatus)
    | FetchBroken

  /** What a `POST <endpoint>/generate-translation` yields to the client: the
      generated bundle, a non-2xx answer whose JSON body may carry an `error`
      field, or no usable answer at all. */
  datatype ProxyResponse =
    | ProxyOk(body: Bundle)
    | ProxyNotOk(error: Option<string>)
    | ProxyBroken

  /** The generation endpoint: (targetLanguage, baseTranslations, context) to answer. */
  type Translator = (string, Bundle, string) -> ProxyResponse

  datatype StoreState = StoreState(
    files: map<string, Bundle>,
    readFaults: map<string, Fault>,
    writeFaults: map<string, WriteFault>)

  /** A read: a faulty path fails as its fault says, a stored path yields its
      bundle, any other path is answered with 404. */
  function Get(st: StoreState, path: string): FetchResponse {
    if path in st.readFaults then
      match st.readFaults[path]
      case Status(code) => FetchNotOk(code)
      case Unreachable => FetchBroken
    else if path in st.files then FetchOk(st.files[path])
    else FetchNotOk(404)
  }

  /** A write of a whole bundle: it replaces the stored bundle at `path`, unless
      the server refused it or never received it, in which case the store is
      unchanged. */
  function Post(st: StoreState, path: string, bundle: Bundle): StoreState {
    if path in st.writeFaults && st.writeFaults[path] != Lost then st
    else st.(files := st.files[path := bundle])
  }

  /** `after` is `before`, or `before` with one bundle written at `path`. */
  ghost predicate OneWriteAt(before: StoreState, after: StoreState, path: string) {
    after == before || exists b :: after == Post(before, path, b)
  }

  /** A write request to `path` gets an answer, whatever its status. */
  predicate WriteAnswered(st: StoreState, path: string) {
    !(path in st.writeFaults && st.writeFaults[path] != Refused)
  }

  /** A bundle written where neither reads nor writes fail is read back as written. */
  lemma PostThenGet(st: StoreState, path: string, bundle: Bundle)
    requires path !in st.readFaults && path !in st.writeFaults
    ensures Get(Post(st, path, bundle), path) == FetchOk(bundle)
  {
  }

  /** A write leaves every other path's answer as it was. */
  lemma PostElsewhere(st: StoreState, path: string, other: string, bundle: Bundle)
    requires other != path
    ensures Get(Post(st, path, bundle), other) == Get(st, other)
  {
  }

  /** The server process: the store changes when written to; the generation
      endpoint is fixed for the server's lifetime. */
  class Server {
    var state: StoreState
    const translate: Translator

    constructor (state: StoreState, translate: Translator)
      ensures this.state == state && this.translate == translate
    {
      this.state := state;
      this.translate := translate;
    }
  }
}
