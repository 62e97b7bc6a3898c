/**
  The `useVerification` hook: the shared input handlers plus its mutation
  callbacks. Starting a request sets `verifying` and reports it through
  `onStatusChange`; a resolved reply whose `status` is "success" sets
  `success`, reports it and fires the caller's `onSuccess` after a delay; a
  rejected reply resets the form through the shared `OnError`.
 */
module Verification {
  import opened Js
  import opened CodeEntry

  /** The hook's initial state: six empty slots, no error, an empty message, `idle`. */
  const Initial := Entry(EmptyCode, 0, false, "", Idle)

  /** `mutationFn`: the request starts, the status becomes `verifying` and is reported. */
  function BeginVerify(e: Entry): (r: Step)
    ensures r.entry.status == Verifying && r.notify == Some(Verifying) && !r.proceed
    ensures r.entry.code == e.code && r.entry.focus == e.focus
    ensures r.entry.error == e.error && r.entry.message == e.message
  {
    Step(e.(status := Verifying), Some(Verifying), false)
  }

  /** `onSuccess`: only a body with `status === "success"` moves to `success`. */
  function OnSuccess(e: Entry, status: Option<string>): (r: Step)
    ensures r.entry.status == Success <==> status == Some("success") || e.status == Success
    ensures status == Some("success") ==> r.notify == Some(Success) && r.proceed
    ensures status != Some("success") ==> r == Step(e, None, false)
    ensures r.entry.code == e.code && r.entry.focus == e.focus
    ensures r.entry.error == e.error && r.entry.message == e.message
  {
    if status == Some("success") then Step(e.(status := Success), Some(Success), true)
    else Step(e, None, false)
  }

  /** `handleSubmit` followed, for a complete code, by the mutation start. */
  function SubmitForm(e: Entry): (r: Step)
    requires |e.code| == CodeLength
    ensures Complete(e.code) <==> r.entry.status == Verifying && r.notify == Some(Verifying)
    ensures !Complete(e.code) ==> r.entry == Submit(e).entry && r.notify == None && !r.proceed
    ensures Complete(e.code) ==> r.entry == e.(status := Verifying) && !r.proceed
    ensures r.entry.code == e.code
  {
    var s := Submit(e);
    if s.request.Request? then BeginVerify(s.entry) else Step(s.entry, None, false)
  }
}
