/** Values shared by the whole client model: the failure-compatible wrappers,
    the translation bundle and the errors a resolution can end in. */
module Core {

  datatype Option<+T> = None | Some(value: T)

  datatype Result<+R, +E> = Success(value: R) | Failure(error: E) {
    predicate IsFailure() { Failure? }

    function PropagateFailure<U>(): Result<U, E>
      requires Failure?
    {
      Failure(error)
    }

    function Extract(): R
      requires Success?
    {
      value
    }
  }

  /** A bundle: the parsed JSON object of one (language, namespace) pair,
      translation key to translated text. Values are opaque to the client. */
  type Bundle = map<string, string>

  /** Message of the configuration error thrown by the path builder. */
  const ConfigMessage: string := "Translyte config error: pathStructure must include '{{lng}}'."

  /** Message used when the generation endpoint rejects a request without
      naming an error of its own. */
  const GenerationFallbackMessage: string := "AI generation via server failed."

  /** The errors `getTranslations` can reject with.
      - ConfigError: the path template lacks the language placeholder.
      - HttpError: the bundle store answered a read with a non-2xx status;
        `status` is the error's `status` property, `path` the path that was read.
      - TransportError: a request never produced a usable answer (the network
        call was rejected, or a body was not JSON); such errors carry no status.
      - GenerationError: the generation endpoint answered with a non-2xx status. */
  datatype Error =
    | ConfigError(message: string)
    | HttpError(status: int, path: string)
    | TransportError
    | GenerationError(message: string)
  {
    /** The only error `getTranslations` turns into a fallback: `error.status === 404`. */
    predicate IsNotFound() { HttpError? && status == 404 }
  }
}
