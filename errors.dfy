/** The `errorHandler` middleware: it turns whatever a handler threw into an
    `apiError` and answers with its status code and a JSON body spreading the
    error's fields. The `apiError` class is not part of this model; an
    `apiError` is described here by the fields the handler reads. */
module ErrorMiddleware {
  import opened Common

  /** A thrown value as the handler sees it. For `Other`, a `statusCode` of 0
      stands for an absent (or otherwise falsy) one and a `message` of ""
      for an absent one, as JavaScript truthiness reads them. */
  datatype Raised =
    | AppError(statusCode: int, message: string, errors: seq<string>, stack: string)
    | Other(isMongoose: bool, statusCode: int, message: string, ownErrors: Option<seq<string>>, stack: string)

  datatype Body = Body(statusCode: int, message: string, errors: seq<string>, stack: Option<string>)

  datatype Response = Response(status: int, body: Body)

  /** `err.statusCode || err instanceof mongoose.Error ? 400 : 500` — the
      conditional binds looser than `||`. */
  function OtherStatus(statusCode: int, isMongoose: bool): int {
    if statusCode != 0 || isMongoose then 400 else 500
  }

  /** The `apiError` every thrown value becomes. */
  function Normalise(e: Raised): (r: Raised)
    ensures r.AppError?
  {
    match e
    case AppError(_, _, _, _) => e
    case Other(isMongoose, code, msg, errs, stack) =>
      AppError(OtherStatus(code, isMongoose),
               if msg != "" then msg else "Something went wrong",
               if errs.Some? then errs.value else [],
               stack)
  }

  /** The response: an `apiError` keeps its status code, message and errors;
      any other error answers 400 or 500, 500 exactly when it has no status
      code of its own and is not a Mongoose error. The body's message is the
      normalised error's message, and a stack is included exactly in development. */
  function ErrorHandler(err: Raised, nodeEnv: string): (r: Response)
    ensures err.AppError? ==>
              r.status == err.statusCode && r.body.message == err.message && r.body.errors == err.errors
    ensures err.Other? ==> (r.status == 400 || r.status == 500)
    ensures err.Other? ==> (r.status == 500 <==> err.statusCode == 0 && !err.isMongoose)
    ensures r.body.statusCode == r.status && r.body.message == Normalise(err).message
    ensures r.body.stack.Some? <==> nodeEnv == "development"
    ensures r.body.stack.Some? ==> r.body.stack.value == err.stack
  {
    var error := Normalise(err);
    var body := Body(error.statusCode, error.message, error.errors,
                     if nodeEnv == "development" then Some(error.stack) else None);
    Response(error.statusCode, body)
  }

  /** As written, a non-`apiError` that carries its own status code (404,
      say) is answered with 400, not with its own code. */
  lemma ForeignStatusCodeBecomes400(msg: string, stack: string, nodeEnv: string)
    ensures ErrorHandler(Other(false, 404, msg, None, stack), nodeEnv).status == 400
  {
  }

  /** The message defaults to "Something went wrong" and the errors to []. */
  lemma Defaults(isMongoose: bool, code: int, stack: string, nodeEnv: string)
    ensures var b := ErrorHandler(Other(isMongoose, code, "", None, stack), nodeEnv).body;
            b.message == "Something went wrong" && b.errors == []
  {
  }

  /** How the handlers' errors arrive: an `ApiError` is an `apiError`; a
      Mongoose error and a plain script error carry no status code. */
  function Raise(t: Thrown, stack: string): Raised {
    match t
    case ApiError(code, msg) => AppError(code, msg, [], stack)
    case MongooseError(msg) => Other(true, 0, msg, None, stack)
    case ScriptError(msg) => Other(false, 0, msg, None, stack)
  }

  /** The status code a client sees for each kind of thrown error. */
  function StatusOf(t: Thrown): int {
    match t
    case ApiError(code, _) => code
    case MongooseError(_) => 400
    case ScriptError(_) => 500
  }

  lemma RaisedStatus(t: Thrown, stack: string, nodeEnv: string)
    ensures ErrorHandler(Raise(t, stack), nodeEnv).status == StatusOf(t)
    ensures t.ApiError? ==> ErrorHandler(Raise(t, stack), nodeEnv).body.message == t.message
  {
  }
}
