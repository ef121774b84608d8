/** The service's own exception classes (each stores a message `msg`, falling back to a fixed
    per-class default) and the other exception kinds that can reach the HTTP boundary. */
module Exceptions {
  import opened Common

  /** The five exception classes the service defines. */
  datatype AppErrorKind =
    | WrongFileType
    | ModelNotFound
    | ExecutorNotFound
    | APIKeyNotFound
    | DatabaseFailed

  /** An instance of one of those classes; `msg` is the attribute the constructor sets. */
  datatype AppError = AppError(kind: AppErrorKind, msg: string)

  /** Exceptions of other libraries, by class name, with the text they carry. */
  datatype LibError = LibError(name: string, message: string)

  /** Every exception kind the boundary distinguishes. */
  datatype Raised =
    | App(err: AppError)
      /** `zipfile.BadZipFile` */
    | BadZipFile
      /** `FileNotFoundError`; `strerror` is only set by the two-argument (errno, text) form. */
    | FileNotFound(strerror: Option<string>, message: string)
      /** `groq.APIStatusError`, carrying the provider's HTTP status. */
    | APIStatusError(statusCode: int, message: string)
      /** `google.api_core.exceptions.ResourceExhausted` (its `code` is the class constant 429). */
    | ResourceExhausted(message: string)
    | ChatGoogleGenerativeAIError(message: string)
    | AttributeError(message: string)
      /** Anything else: pandas, SQL and scikit-learn errors, among others. */
    | Other(lib: LibError)

  const WrongFileTypeDefault := "Wrong file type received, only csv is supported!"
  const ModelNotFoundDefault := "No llm found, instantiate a model first with the available methods."
  const ExecutorNotFoundDefault := "No agent found, initialize the agent first with initialize_agent method."
  const APIKeyNotFoundDefault := "Your API key for the desired agent is missing, please export a key as an environment variable."
  const DatabaseFailedDefault := "An internal error occurred, please try again."

  /** The message each class falls back to. */
  function DefaultMsg(k: AppErrorKind): (m: string)
    ensures |m| > 0
  {
    match k
    case WrongFileType => WrongFileTypeDefault
    case ModelNotFound => ModelNotFoundDefault
    case ExecutorNotFound => ExecutorNotFoundDefault
    case APIKeyNotFound => APIKeyNotFoundDefault
    case DatabaseFailed => DatabaseFailedDefault
  }

  /** The constructor of each class: `self.msg = msg or default`. Python's `or` treats both
      `None` and the empty string as absent. */
  function Make(k: AppErrorKind, msg: Option<string>): (e: AppError)
    ensures e.kind == k
    ensures e.msg != ""
    ensures msg.Some? && msg.value != "" ==> e.msg == msg.value
    ensures msg.None? || msg.value == "" ==> e.msg == DefaultMsg(k)
  {
    var given := if msg.Some? then msg.value else "";
    AppError(k, if given != "" then given else DefaultMsg(k))
  }

  /** Re-raising an exception of the same class with the message it already carries
      yields the same exception. */
  lemma RemakeIsIdentity(k: AppErrorKind, msg: Option<string>)
    ensures Make(k, Some(Make(k, msg).msg)) == Make(k, msg)
  {
  }

  /** A single-argument `FileNotFoundError(text)`: Python leaves `strerror` as None. */
  function FileNotFoundWithText(text: string): (e: Raised)
    ensures e.FileNotFound? && e.strerror.None? && e.message == text
  {
    FileNotFound(None, text)
  }
}
