/** src/middlewares/error.middleware.ts: the application error type and the
    final error handler, which turns a thrown value into a status and a JSON
    body. The environment's `NODE_ENV` is a parameter. */
module ErrorMiddleware {
  import opened Wrappers

  /** `new AppError(message, statusCode)`. */
  datatype AppError = AppError(message: string, statusCode: int)

  /** A value that reached the error handler: an `AppError`, or anything
      else, seen through its `message` and `stack` properties (`None` where
      the property is undefined). */
  datatype Thrown =
    | App(error: AppError)
    | Other(message: Option<string>, stack: Option<string>)

  /** The JSON body as sent; `None` marks a key the body does not carry (a
      key whose value is undefined is dropped by the JSON encoding). */
  datatype Body = Body(message: string, error: Option<string>, stack: Option<string>)

  datatype Response = Response(status: int, body: Body)

  const InternalMessage := "Internal Server Error"

  /** `err.message || 'Unknown error'`. */
  function ErrorText(message: Option<string>): (r: string)
    ensures r == "Unknown error" <==> message.None? || message.value == "" || message.value == "Unknown error"
    ensures r != "" && (message.Some? && message.value != "" ==> r == message.value)
  {
    if message.None? || message.value == "" then "Unknown error" else message.value
  }

  /** `errorMiddleware(err)`: an `AppError` answers with its own status and
      only its message; anything else answers 500, with the error text and
      stack added unless `NODE_ENV` is `production`. */
  function ErrorResponse(err: Thrown, nodeEnv: Option<string>): (r: Response)
    ensures err.App? ==> r == Response(err.error.statusCode, Body(err.error.message, None, None))
    ensures err.Other? ==> r.status == 500 && r.body.message == InternalMessage
    ensures err.Other? ==> (r.body.error.Some? <==> nodeEnv != Some("production"))
    ensures err.Other? && r.body.error.Some? ==> r.body.error.value == ErrorText(err.message)
    ensures err.Other? ==> r.body.stack == if nodeEnv != Some("production") then err.stack else None
  {
    match err
    case App(e) => Response(e.statusCode, Body(e.message, None, None))
    case Other(message, stack) =>
      if nodeEnv != Some("production") then
        Response(500, Body(InternalMessage, Some(ErrorText(message)), stack))
      else
        Response(500, Body(InternalMessage, None, None))
  }

  /** A constructed `AppError` comes back out of the handler unchanged:
      status and message are the constructor's arguments, in every
      environment. */
  lemma AppErrorRoundTrip(message: string, statusCode: int, nodeEnv: Option<string>)
    ensures var r := ErrorResponse(App(AppError(message, statusCode)), nodeEnv);
      r.status == statusCode && r.body.message == message && r.body.error.None? && r.body.stack.None?
  {
  }

  /** Whatever else is thrown, the status is 500 and the client sees the
      same generic message; the environment only decides the extra keys. */
  lemma OtherErrorsAlike(a: Thrown, b: Thrown, nodeEnv: Option<string>)
    requires a.Other? && b.Other?
    ensures ErrorResponse(a, nodeEnv).status == ErrorResponse(b, nodeEnv).status == 500
    ensures ErrorResponse(a, Some("production")) == ErrorResponse(b, Some("production"))
  {
  }
}
