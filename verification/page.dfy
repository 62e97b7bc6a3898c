/**
  The standalone page's copy of the form. Its input handlers are the shared
  ones; it differs from the hook in three ways: the message starts as the
  generic failure text, submitting a complete code hands it to a debounced
  mutation without touching the status, and a successful reply changes the
  route straight away. No status is reported to a caller.
 */
module Page {
  import opened Js
  import opened CodeEntry

  /** Six empty slots, no error, status `idle`, the generic failure text as the message. */
  const Initial := Entry(EmptyCode, 0, false, FallbackMessage, Idle)

  /** `onSuccess`: a body with `status === "success"` sets `success` and replaces the route. */
  function OnSuccess(e: Entry, status: Option<string>): (r: Step)
    ensures r.entry.status == Success <==> status == Some("success") || e.status == Success
    ensures r.proceed <==> status == Some("success")
    ensures status != Some("success") ==> r.entry == e
    ensures r.notify == None
    ensures r.entry.code == e.code && r.entry.focus == e.focus
    ensures r.entry.error == e.error && r.entry.message == e.message
  {
    if status == Some("success") then Step(e.(status := Success), None, true)
    else Step(e, None, false)
  }

  /** `handleSubmit`: the joined code goes to the debounced mutation; the status is left alone. */
  function SubmitForm(e: Entry): (r: Step)
    requires |e.code| == CodeLength
    ensures r.entry.status == e.status && r.entry.code == e.code
    ensures Complete(e.code) ==> r.entry == e
    ensures !Complete(e.code) ==> r.entry.error && r.entry.message == FillAllMessage
    ensures !Complete(e.code) ==>
      && 0 <= r.entry.focus < CodeLength && e.code[r.entry.focus] == ""
      && (forall j :: 0 <= j < r.entry.focus ==> e.code[j] != "")
    ensures r.entry == Submit(e).entry
    ensures r.notify == None && !r.proceed
  {
    Step(Submit(e).entry, None, false)
  }
}
