/**
  `verifyOTP` on `POST /verify`, and the whole HTTP reply the server sends
  for one request. Validation errors short-circuit with 400 and the error
  list; a valid code whose sixth character is '7' raises
  `AppError('Verification Error', 400)`, which the error middleware turns into
  the reply; any other valid code gets 200 and a success message.
 */
module Controller {
  import opened Js
  import opened Validation
  import opened AppErrors
  import opened ErrorMiddleware

  const BadRequest := 400
  const Ok := 200
  const RejectedDigit := '7'
  const DomainMessage := "Verification Error"
  const SuccessMessage := "Verification Successful"

  /** The controller's three outcomes; the domain failure is the thrown error object. */
  datatype Outcome =
    | ValidationFailed(errors: seq<FieldError>)
    | DomainFailed(error: ErrorObject)
    | Verified(message: string)

  datatype Json =
    | SuccessJson(status: string, message: string)
    | ErrorsJson(status: string, errors: seq<FieldError>)
    | ErrorJson(fields: ErrorBody)

  datatype Response = Response(code: int, json: Json, logged: Option<string>)

  function VerifyOtp(body: Body, isNumeric: string -> bool, trace: string): (r: Outcome)
    ensures r.ValidationFailed? <==> Check(body, isNumeric) != []
    ensures r.ValidationFailed? ==> r.errors == Check(body, isNumeric)
    ensures r.DomainFailed? <==> Check(body, isNumeric) == [] && CodeField(body)[5] == RejectedDigit
    ensures r.Verified? <==> Check(body, isNumeric) == [] && CodeField(body)[5] != RejectedDigit
    ensures r.DomainFailed? ==>
      && r.error.message == DomainMessage
      && r.error.statusCode == Some(BadRequest)
      && r.error.status == Some("error")
      && r.error.isOperational == Some(true)
    ensures r.Verified? ==> r.message == SuccessMessage
  {
    var errors := Check(body, isNumeric);
    if errors != [] then
      ValidationFailed(errors)
    else if CodeField(body)[5] == RejectedDigit then
      HttpCodeStatus(BadRequest);
      DomainFailed(NewAppError(DomainMessage, Some(BadRequest), None, None, trace))
    else
      Verified(SuccessMessage)
  }

  /** For codes that pass validation, the outcome depends on the sixth character alone. */
  lemma SixthCharacterDecides(b1: Body, b2: Body, isNumeric: string -> bool, trace: string)
    requires Check(b1, isNumeric) == [] && Check(b2, isNumeric) == []
    requires CodeField(b1)[5] == CodeField(b2)[5]
    ensures VerifyOtp(b1, isNumeric, trace) == VerifyOtp(b2, isNumeric, trace)
  {
  }

  /** The HTTP reply for one request as written: the thrown error's stack is always in the body. */
  function ServeAsWritten(body: Body, isNumeric: string -> bool, env: Option<string>, trace: string): (r: Response)
    ensures Check(body, isNumeric) != [] ==>
      r == Response(BadRequest, ErrorsJson("error", Check(body, isNumeric)), None)
    ensures Check(body, isNumeric) == [] && CodeField(body)[5] == RejectedDigit ==>
      && r.code == BadRequest && r.logged.None? && r.json.ErrorJson?
      && r.json.fields.status == Some("error") && r.json.fields.message == DomainMessage
      && r.json.fields.stack == Some(trace)
    ensures Check(body, isNumeric) == [] && CodeField(body)[5] != RejectedDigit ==>
      r == Response(Ok, SuccessJson("success", SuccessMessage), None)
    ensures r.logged.None?
  {
    match VerifyOtp(body, isNumeric, trace)
    case ValidationFailed(errors) => Response(BadRequest, ErrorsJson("error", errors), None)
    case DomainFailed(e) =>
      var sent := HandleAsWritten(e, env);
      Response(sent.httpStatus, ErrorJson(sent.body), sent.logged)
    case Verified(message) => Response(Ok, SuccessJson("success", message), None)
  }

  /** The HTTP reply for one request, with the thrown error passed through the corrected `handler`. */
  function Serve(body: Body, isNumeric: string -> bool, env: Option<string>, trace: string): (r: Response)
    ensures Check(body, isNumeric) != [] ==>
      r == Response(BadRequest, ErrorsJson("error", Check(body, isNumeric)), None)
    ensures Check(body, isNumeric) == [] && CodeField(body)[5] == RejectedDigit ==>
      && r.code == BadRequest && r.logged.None? && r.json.ErrorJson?
      && r.json.fields.status == Some("error") && r.json.fields.message == DomainMessage
      && (r.json.fields.stack.Some? <==> Development(env))
    ensures Check(body, isNumeric) == [] && CodeField(body)[5] != RejectedDigit ==>
      r == Response(Ok, SuccessJson("success", SuccessMessage), None)
    ensures r.logged.None?
  {
    match VerifyOtp(body, isNumeric, trace)
    case ValidationFailed(errors) => Response(BadRequest, ErrorsJson("error", errors), None)
    case DomainFailed(e) =>
      var sent := Handle(e, env);
      Response(sent.httpStatus, ErrorJson(sent.body), sent.logged)
    case Verified(message) => Response(Ok, SuccessJson("success", message), None)
  }

  /** The corrected reply differs from the written one only in a domain failure's stack. */
  lemma ServeCorrectionOnlyTouchesStack(body: Body, isNumeric: string -> bool, env: Option<string>, trace: string)
    ensures var w := ServeAsWritten(body, isNumeric, env, trace);
      var c := Serve(body, isNumeric, env, trace);
      && w.code == c.code && w.logged == c.logged
      && (w.json.ErrorJson? <==> c.json.ErrorJson?)
      && (w.json.ErrorJson? ==> w.json.fields.(stack := None) == c.json.fields.(stack := None))
      && (!w.json.ErrorJson? ==> w == c)
  {
    match VerifyOtp(body, isNumeric, trace)
    case ValidationFailed(_) =>
    case DomainFailed(e) => HandleCorrectionOnlyTouchesStack(e, env);
    case Verified(_) =>
  }
}
