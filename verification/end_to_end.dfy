/**
  The client and the server together. The HTTP client posts
  `{ code: payload }`, resolves with the body of a 2xx reply and rejects
  otherwise, handing the rejected body's `message` to the error callback; a
  request that gets no reply rejects with no message.

  The lemmas are stated over the corrected `Serve`. They hold for the program
  as written (`ServeAsWritten`) as well: `ClientIgnoresStack` shows the client
  settles with the same reply either way, and
  `ServeCorrectionOnlyTouchesStack` that the two agree on the status code.
 */
module EndToEnd {
  import opened Js
  import opened CodeEntry
  import Verification
  import Page
  import opened Form
  import opened Validation
  import opened Controller

  function StatusOf(j: Json): Option<string> {
    match j
    case SuccessJson(status, _) => Some(status)
    case ErrorsJson(status, _) => Some(status)
    case ErrorJson(fields) => fields.status
  }

  function MessageOf(j: Json): Option<string> {
    match j
    case SuccessJson(_, message) => Some(message)
    case ErrorsJson(_, _) => None
    case ErrorJson(fields) => Some(fields.message)
  }

  /**
    How the HTTP client settles a reply: axios's default `validateStatus`
    resolves a 2xx status with the body and rejects any other, exposing the
    body as `error.response.data`.
   */
  function Settle(resp: Response): (r: Reply)
    ensures r.Resolved? <==> 200 <= resp.code < 300
    ensures r.Resolved? ==> r.status == StatusOf(resp.json)
    ensures r.Rejected? ==> r.message == MessageOf(resp.json)
  {
    if 200 <= resp.code < 300 then Resolved(StatusOf(resp.json)) else Rejected(MessageOf(resp.json))
  }

  /**
    What the client makes of any server reply: it resolves, with status
    "success", exactly for a verified code; a validation failure rejects with
    no message; a domain failure rejects with "Verification Error".
   */
  lemma ServedReplySettles(body: Body, isNumeric: string -> bool, env: Option<string>, trace: string)
    ensures var o := VerifyOtp(body, isNumeric, trace);
      var reply := Settle(Serve(body, isNumeric, env, trace));
      && (reply.Resolved? <==> o.Verified?)
      && (reply.Resolved? ==> reply.status == Some("success"))
      && (reply == Rejected(None) <==> o.ValidationFailed?)
      && (reply == Rejected(Some(DomainMessage)) <==> o.DomainFailed?)
  {
  }

  /** The stack the written middleware leaks changes nothing the client acts on. */
  lemma ClientIgnoresStack(body: Body, isNumeric: string -> bool, env: Option<string>, trace: string)
    ensures Settle(ServeAsWritten(body, isNumeric, env, trace)) == Settle(Serve(body, isNumeric, env, trace))
  {
    ServeCorrectionOnlyTouchesStack(body, isNumeric, env, trace);
  }

  /** A request that never got a reply. */
  const NoReply := Rejected(None)

  /** The request body the client posts for a payload. */
  function PostBody(payload: string): (b: Body)
    ensures CodeField(b) == payload
  {
    map["code" := payload]
  }

  /** Every payload the form submits passes the server's validation. */
  lemma SubmittedCodePassesValidation(e: Entry, isNumeric: string -> bool)
    requires WellFormed(e) && NumericShape(isNumeric)
    ensures Submit(e).request.Request? ==> Check(PostBody(Submit(e).request.payload), isNumeric) == []
  {
  }

  /** For a submitted code, the server rejects exactly when the sixth slot holds "7". */
  lemma ServerDecidesOnSixthSlot(e: Entry, isNumeric: string -> bool, trace: string)
    requires WellFormed(e) && Complete(e.code) && NumericShape(isNumeric)
    ensures var o := VerifyOtp(PostBody(Submit(e).request.payload), isNumeric, trace);
      && (o.DomainFailed? <==> e.code[5] == "7")
      && (o.Verified? <==> e.code[5] != "7")
  {
    var p := Submit(e).request.payload;
    assert e.code[5] == [p[5]];
  }

  /** What the client receives for a submitted code: "success", or the domain failure's message. */
  lemma ReplyToSubmitted(e: Entry, isNumeric: string -> bool, env: Option<string>, trace: string)
    requires WellFormed(e) && Complete(e.code) && NumericShape(isNumeric)
    ensures var reply := Settle(Serve(PostBody(Submit(e).request.payload), isNumeric, env, trace));
      && (e.code[5] == "7" ==> reply == Rejected(Some(DomainMessage)))
      && (e.code[5] != "7" ==> reply == Resolved(Some("success")))
  {
    ServerDecidesOnSixthSlot(e, isNumeric, trace);
    SubmittedCodePassesValidation(e, isNumeric);
  }

  /**
    The hook, end to end: submitting a complete code shows `verifying`; the
    server's reply then leads to `success` and the completion callback, or,
    when the sixth digit is 7, to a cleared form showing "Verification Error".
   */
  lemma HookRoundTrip(e: Entry, isNumeric: string -> bool, env: Option<string>, trace: string)
    requires WellFormed(e) && Complete(e.code) && NumericShape(isNumeric)
    ensures var sent := Verification.SubmitForm(e);
      var reply := Settle(Serve(PostBody(Submit(e).request.payload), isNumeric, env, trace));
      var done := Apply(Hook, sent.entry, Settled(reply));
      && sent.entry.status == Verifying
      && (e.code[5] == "7" ==>
            && done.entry.status == Error && done.entry.message == DomainMessage
            && done.entry.code == EmptyCode && done.entry.focus == 0 && !done.proceed)
      && (e.code[5] != "7" ==>
            && done.entry.status == Success && done.proceed
            && done.notify == Some(Success) && done.entry.code == e.code)
  {
    ReplyToSubmitted(e, isNumeric, env, trace);
  }

  /** The page, end to end: the same outcomes, without ever showing `verifying`. */
  lemma PageRoundTrip(e: Entry, isNumeric: string -> bool, env: Option<string>, trace: string)
    requires WellFormed(e) && Complete(e.code) && NumericShape(isNumeric)
    ensures var sent := Page.SubmitForm(e);
      var reply := Settle(Serve(PostBody(Submit(e).request.payload), isNumeric, env, trace));
      var done := Apply(Standalone, sent.entry, Settled(reply));
      && sent.entry == e
      && (e.code[5] == "7" ==>
            && done.entry.status == Error && done.entry.message == DomainMessage
            && done.entry.code == EmptyCode && done.entry.focus == 0)
      && (e.code[5] != "7" ==> done.entry.status == Success && done.proceed)
  {
    ReplyToSubmitted(e, isNumeric, env, trace);
  }

  /** A validation failure carries no message, so the form shows the generic failure text. */
  lemma ValidationFailureShowsFallback(e: Entry, body: Body, isNumeric: string -> bool,
                                       env: Option<string>, trace: string)
    requires Check(body, isNumeric) != []
    ensures OnError(e, Settle(Serve(body, isNumeric, env, trace)).message).entry.message
      == FallbackMessage
  {
  }

  /** A lost request resets the form to the generic failure text too. */
  lemma NoReplyShowsFallback(e: Entry)
    ensures OnError(e, NoReply.message).entry.message == FallbackMessage
    ensures OnError(e, NoReply.message).entry.status == Error
  {
  }

  /** Submitting "123457" ends in the domain failure and a cleared form. */
  lemma Scenario123457(isNumeric: string -> bool, env: Option<string>, trace: string)
    requires NumericShape(isNumeric)
    ensures var e := Entry(Split("123457"), 5, false, "", Idle);
      var resp := Serve(PostBody("123457"), isNumeric, env, trace);
      && Submit(e).request == Request("123457")
      && resp.code == BadRequest
      && Apply(Hook, e, Settled(Settle(resp))).entry
         == Entry(EmptyCode, 0, true, DomainMessage, Error)
  {
    var e := Entry(Split("123457"), 5, false, "", Idle);
    SplitJoin("123457");
    assert Complete(e.code);
    assert AllDigits("123457");
    ServedReplySettles(PostBody("123457"), isNumeric, env, trace);
  }

  /** Submitting "123456" succeeds and fires the completion callback. */
  lemma Scenario123456(isNumeric: string -> bool, env: Option<string>, trace: string)
    requires NumericShape(isNumeric)
    ensures var e := Entry(Split("123456"), 5, false, "", Verifying);
      var resp := Serve(PostBody("123456"), isNumeric, env, trace);
      && resp == Response(Ok, SuccessJson("success", SuccessMessage), None)
      && Apply(Hook, e, Settled(Settle(resp))) == Step(e.(status := Success), Some(Success), true)
  {
    assert AllDigits("123456");
  }

  /** "12a456" fails validation on the numeric check, not on the length. */
  lemma Scenario12a456(isNumeric: string -> bool, env: Option<string>, trace: string)
    requires NumericShape(isNumeric)
    ensures Check(PostBody("12a456"), isNumeric) == [NumericError]
    ensures Serve(PostBody("12a456"), isNumeric, env, trace)
      == Response(BadRequest, ErrorsJson("error", [NumericError]), None)
  {
    assert !NumericChar("12a456"[2]);
  }
}
