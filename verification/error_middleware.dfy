/**
  The Express error middleware. `handler` fills in a missing status code
  (500) and a missing status ("error"), then `sendError` shapes the reply:
  the HTTP status is the error's status code, the JSON body carries the
  error's own fields with its status and message, a stack trace is meant to
  be added only when `ENV` is "development", and an error that is not marked
  operational is logged with the request's metadata.

  `sendError` as written copies the stack into the object it spreads into the
  body, so the stack is sent whatever `ENV` says (`SendErrorAsWritten`); the
  rest of the model uses the corrected `SendError`.
 */
module ErrorMiddleware {
  import opened Js
  import opened AppErrors

  /** The JSON error body; `None` fields are `undefined` and so absent from the JSON. */
  datatype ErrorBody = ErrorBody(
    status: Option<string>,
    message: string,
    statusCode: Option<int>,
    name: Option<string>,
    isOperational: Option<bool>,
    flag: Option<string>,
    stack: Option<string>)

  /** The reply: HTTP status, JSON body, and the message logged with request metadata, if any. */
  datatype Sent = Sent(httpStatus: int, body: ErrorBody, logged: Option<string>)

  const DefaultStatus := "error"

  predicate Development(env: Option<string>) {
    env == Some("development")
  }

  predicate Operational(e: ErrorObject) {
    e.isOperational == Some(true)
  }

  /** The two defaults `handler` writes into the error before sending it. */
  function Defaults(e: ErrorObject): (r: ErrorObject)
    ensures TruthyNumber(r.statusCode) && TruthyString(r.status)
    ensures TruthyNumber(e.statusCode) ==> r.statusCode == e.statusCode
    ensures !TruthyNumber(e.statusCode) ==> r.statusCode == Some(InternalServerError)
    ensures TruthyString(e.status) ==> r.status == e.status
    ensures !TruthyString(e.status) ==> r.status == Some(DefaultStatus)
    ensures r.message == e.message && r.name == e.name && r.isOperational == e.isOperational
    ensures r.flag == e.flag && r.stack == e.stack
  {
    e.(statusCode := Some(if TruthyNumber(e.statusCode) then e.statusCode.value else InternalServerError),
       status := Some(OrString(e.status, DefaultStatus)))
  }

  function Reply(e: ErrorObject, stack: Option<string>): ErrorBody {
    ErrorBody(e.status, e.message, e.statusCode, e.name, e.isOperational, e.flag, stack)
  }

  function LogLine(e: ErrorObject): Option<string> {
    if Operational(e) then None else Some(e.message)
  }

  /** `sendError` as written: the spread of `customError` already holds the stack. */
  function SendErrorAsWritten(e: ErrorObject, env: Option<string>): (r: Sent)
    ensures r.body.stack == Some(e.stack)
    ensures r.httpStatus == if TruthyNumber(e.statusCode) then e.statusCode.value else InternalServerError
    ensures r.logged.Some? <==> !Operational(e)
  {
    Sent(if TruthyNumber(e.statusCode) then e.statusCode.value else InternalServerError,
         Reply(e, Some(e.stack)),
         LogLine(e))
  }

  /** The stack reaches the client even when `ENV` is not "development". */
  lemma StackSentOutsideDevelopment(e: ErrorObject, env: Option<string>)
    requires !Development(env)
    ensures SendErrorAsWritten(e, env).body.stack.Some?
    ensures SendError(e, env).body.stack.None?
  {
  }

  /** `sendError` with the stack added only in development. */
  function SendError(e: ErrorObject, env: Option<string>): (r: Sent)
    ensures r.httpStatus == if TruthyNumber(e.statusCode) then e.statusCode.value else InternalServerError
    ensures r.body.stack.Some? <==> Development(env)
    ensures r.body.stack.Some? ==> r.body.stack.value == e.stack
    ensures r.body.message == e.message && r.body.status == e.status
    ensures r.body.statusCode == e.statusCode && r.body.name == e.name && r.body.flag == e.flag
    ensures r.body.isOperational == e.isOperational
    ensures r.logged.Some? <==> !Operational(e)
    ensures r.logged.Some? ==> r.logged.value == e.message
  {
    Sent(if TruthyNumber(e.statusCode) then e.statusCode.value else InternalServerError,
         Reply(e, if Development(env) then Some(e.stack) else None),
         LogLine(e))
  }

  /** Apart from the stack, the corrected reply is the reply as written. */
  lemma CorrectionOnlyTouchesStack(e: ErrorObject, env: Option<string>)
    ensures var w := SendErrorAsWritten(e, env); var c := SendError(e, env);
      && w.httpStatus == c.httpStatus && w.logged == c.logged
      && w.body.(stack := None) == c.body.(stack := None)
      && (Development(env) ==> w == c)
  {
  }

  /** `handler` as written: the defaults, then the written `sendError`, so the stack is always sent. */
  function HandleAsWritten(e: ErrorObject, env: Option<string>): (r: Sent)
    ensures r.httpStatus == if TruthyNumber(e.statusCode) then e.statusCode.value else InternalServerError
    ensures r.body.statusCode == Some(r.httpStatus) && r.httpStatus != 0
    ensures r.body.status == Some(if TruthyString(e.status) then e.status.value else DefaultStatus)
    ensures r.body.message == e.message
    ensures r.body.stack == Some(e.stack)
    ensures r.logged.Some? <==> !Operational(e)
  {
    SendErrorAsWritten(Defaults(e), env)
  }

  /** `handler` with the corrected `sendError`: apply the defaults, then send. */
  function Handle(e: ErrorObject, env: Option<string>): (r: Sent)
    ensures r.httpStatus == if TruthyNumber(e.statusCode) then e.statusCode.value else InternalServerError
    ensures r.body.statusCode == Some(r.httpStatus) && r.httpStatus != 0
    ensures r.body.status == Some(if TruthyString(e.status) then e.status.value else DefaultStatus)
    ensures r.body.message == e.message
    ensures r.body.stack.Some? <==> Development(env)
    ensures r.logged.Some? <==> !Operational(e)
  {
    SendError(Defaults(e), env)
  }

  /** The corrected `handler` differs from the written one in the stack alone. */
  lemma HandleCorrectionOnlyTouchesStack(e: ErrorObject, env: Option<string>)
    ensures var w := HandleAsWritten(e, env); var c := Handle(e, env);
      && w.httpStatus == c.httpStatus && w.logged == c.logged
      && w.body.(stack := None) == c.body.(stack := None)
      && (Development(env) <==> w == c)
  {
    CorrectionOnlyTouchesStack(Defaults(e), env);
  }

  /** An `AppError` is never logged, and keeps the status and code its constructor chose. */
  lemma AppErrorHandled(message: string, statusCode: Option<int>, name: Option<string>,
                        flag: Option<string>, trace: string, env: Option<string>)
    ensures var e := NewAppError(message, statusCode, name, flag, trace);
      var r := Handle(e, env);
      && r.logged.None?
      && r.body.status == e.status
      && Some(r.httpStatus) == e.statusCode
      && r.body.isOperational == Some(true)
  {
  }
}
