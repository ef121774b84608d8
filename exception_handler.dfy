/** The middleware that turns exceptions escaping a request into HTTP responses. It holds
    no state: it is a table from the exception's kind to a response, or to "propagate". */
module ExceptionHandler {
  import opened Common
  import opened Exceptions

  /** A `JSONResponse`; `content` None is rendered as JSON `null`. */
  datatype HttpResponse = JSONResponse(status: int, content: Option<string>)

  /** What `call_next(request)` did: returned a response, or raised. */
  datatype Downstream = Responded(response: HttpResponse) | Threw(exc: Raised)

  /** What `dispatch` does: answers with a response, or lets the exception propagate. */
  datatype Handling = Respond(response: HttpResponse) | Propagate(exc: Raised)

  const BadRequest := 400
  const TooManyRequests := 429

  const BadZipMessage := "Bad zip file sent, maybe the file is corrupted or empty."
  const GeminiMessage := "Failed to create a new Gemini model chat, check if your API key is correct or try sending it again."

  /** The exceptions one of the `except` clauses names. */
  predicate Handled(e: Raised)
  {
    match e
    case App(err) => err.kind in {APIKeyNotFound, WrongFileType, ModelNotFound}
    case BadZipFile => true
    case FileNotFound(_, _) => true
    case APIStatusError(_, _) => true
    case ResourceExhausted(_) => true
    case ChatGoogleGenerativeAIError(_) => true
    case AttributeError(_) => false
    case Other(_) => false
  }

  /** The status the provider reported, kept for the two provider error kinds. */
  predicate ProviderError(e: Raised)
  {
    e.APIStatusError? || e.ResourceExhausted?
  }

  function Dispatch(d: Downstream): (o: Handling)
    ensures d.Responded? ==> o == Respond(d.response)
    ensures o.Propagate? <==> d.Threw? && !Handled(d.exc)
    ensures o.Propagate? ==> o.exc == d.exc
    ensures d.Threw? && Handled(d.exc) && !ProviderError(d.exc) ==> o.response.status == BadRequest
    ensures d.Threw? && d.exc.App? && Handled(d.exc) ==> o.response.content == Some(d.exc.err.msg)
    ensures d.Threw? && d.exc.FileNotFound? ==> o.response.content == d.exc.strerror
    ensures d.Threw? && d.exc.BadZipFile? ==> o == Respond(JSONResponse(BadRequest, Some(BadZipMessage)))
    ensures d.Threw? && d.exc.ChatGoogleGenerativeAIError? ==> o == Respond(JSONResponse(BadRequest, Some(GeminiMessage)))
    ensures d.Threw? && ProviderError(d.exc) ==> o.response.content == Some(d.exc.message)
  {
    match d
    case Responded(resp) => Respond(resp)
    case Threw(e) =>
      match e
      case App(err) =>
        if err.kind in {APIKeyNotFound, WrongFileType, ModelNotFound} then
          Respond(JSONResponse(BadRequest, Some(err.msg)))
        else
          Propagate(e)
      case BadZipFile => Respond(JSONResponse(BadRequest, Some(BadZipMessage)))
      case FileNotFound(strerror, _) => Respond(JSONResponse(BadRequest, strerror))
      case APIStatusError(code, message) => Respond(JSONResponse(code, Some(message)))
      case ResourceExhausted(message) => Respond(JSONResponse(TooManyRequests, Some(message)))
      case ChatGoogleGenerativeAIError(_) => Respond(JSONResponse(BadRequest, Some(GeminiMessage)))
      case AttributeError(_) => Propagate(e)
      case Other(_) => Propagate(e)
  }

  /** A handled exception of the service's own classes always answers 400 with a
      non-empty body, whatever message (or none) it was raised with. */
  lemma AppErrorAnswersWithMessage(k: AppErrorKind, msg: Option<string>)
    requires k in {APIKeyNotFound, WrongFileType, ModelNotFound}
    ensures Dispatch(Threw(App(Make(k, msg)))).Respond?
    ensures Dispatch(Threw(App(Make(k, msg)))).response.status == BadRequest
    ensures Dispatch(Threw(App(Make(k, msg)))).response.content.Some?
    ensures Dispatch(Threw(App(Make(k, msg)))).response.content.value != ""
  {
  }

  /** The two exception classes the handler does not name escape it unchanged. */
  lemma UnhandledAppErrorsPropagate(k: AppErrorKind, msg: Option<string>)
    requires k in {ExecutorNotFound, DatabaseFailed}
    ensures Dispatch(Threw(App(Make(k, msg)))) == Propagate(App(Make(k, msg)))
  {
  }

  /** Provider failures keep the provider's own status code. */
  lemma ProviderStatusPassesThrough(e: Raised)
    requires ProviderError(e)
    ensures Dispatch(Threw(e)).Respond?
    ensures Dispatch(Threw(e)).response.status == (if e.APIStatusError? then e.statusCode else TooManyRequests)
  {
  }
}
