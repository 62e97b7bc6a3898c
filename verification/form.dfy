/**
  The form as a whole, in either of its two copies: the `useVerification`
  hook and the standalone page. Both route the input events to the shared
  handlers; they differ only in how a submission starts and how a resolved
  reply is handled. A keystroke reaches the input that holds focus, so a
  `Typed` or `Pressed` event on input `index` first puts focus there.
 */
module Form {
  import opened Js
  import opened CodeEntry
  import Verification
  import Page

  /** Which copy of the form is running. */
  datatype Host = Hook | Standalone

  function Initial(h: Host): Entry {
    match h
    case Hook => Verification.Initial
    case Standalone => Page.Initial
  }

  /** One event on host `h`. */
  function Apply(h: Host, e: Entry, ev: Event): (r: Step)
    requires |e.code| == CodeLength
    ensures |r.entry.code| == CodeLength
    ensures WellFormed(e) ==> WellFormed(r.entry)
    ensures h == Standalone ==> r.entry.status in {e.status, Success, Error}
  {
    match ev
    case Focused(i) => Step(e.(focus := i), None, false)
    case Typed(i, v) => Step(Change(e.(focus := i), i, v), None, false)
    case Pressed(i, k) => Step(KeyDown(e.(focus := i), i, k), None, false)
    case Pasted(t) => Step(Paste(e, t), None, false)
    case SubmitPressed =>
      if h == Hook then Verification.SubmitForm(e) else Page.SubmitForm(e)
    case Settled(Resolved(s)) =>
      if h == Hook then Verification.OnSuccess(e, s) else Page.OnSuccess(e, s)
    case Settled(Rejected(m)) => OnError(e, m)
  }

  function Run(h: Host, e: Entry, evs: seq<Event>): (r: Entry)
    requires |e.code| == CodeLength
    decreases evs
  {
    if evs == [] then e else Run(h, Apply(h, e, evs[0]).entry, evs[1..])
  }

  /**
    Focus after a keystroke on input `i`: it stays on `i` unless the handler
    moves it to a neighbour, and it moves forward exactly on an accepted digit
    or ArrowRight, backward exactly on ArrowLeft or Backspace over an empty slot.
   */
  lemma FocusFollowsKeystrokes(h: Host, e: Entry, ev: Event)
    requires WellFormed(e)
    requires ev.Typed? || ev.Pressed?
    ensures var f := Apply(h, e, ev).entry.focus;
      && (f == ev.index || f == ev.index + 1 || f == ev.index - 1)
      && (ev.Typed? ==>
            && f != ev.index - 1
            && (f == ev.index + 1 <==> IsSlotValue(ev.value) && ev.value != "" && ev.index < CodeLength - 1))
      && (ev.Pressed? ==>
            && (f == ev.index + 1 <==> ev.key == "ArrowRight" && ev.index < CodeLength - 1)
            && (f == ev.index - 1 <==>
                  ev.index > 0 && (ev.key == "ArrowLeft" || (ev.key == "Backspace" && e.code[ev.index] == ""))))
  {
  }

  /** Every sequence of events from a well-formed state ends in a well-formed state. */
  lemma {:induction false} RunKeepsWellFormed(h: Host, e: Entry, evs: seq<Event>)
    requires WellFormed(e)
    ensures WellFormed(Run(h, e, evs))
    decreases evs
  {
    if evs != [] {
      RunKeepsWellFormed(h, Apply(h, e, evs[0]).entry, evs[1..]);
    }
  }

  lemma ReachableWellFormed(h: Host, evs: seq<Event>)
    ensures WellFormed(Run(h, Initial(h), evs))
  {
    RunKeepsWellFormed(h, Initial(h), evs);
  }

  /** On either host, `success` is entered only by a resolved reply whose status is "success". */
  lemma SuccessOnlyFromSuccessReply(h: Host, e: Entry, ev: Event)
    requires |e.code| == CodeLength
    requires e.status != Success
    ensures Apply(h, e, ev).entry.status == Success <==> ev == Settled(Resolved(Some("success")))
  {
  }

  /** On the hook, only submitting a complete code moves the status to `verifying`. */
  lemma VerifyingOnlyFromSubmit(e: Entry, ev: Event)
    requires |e.code| == CodeLength
    requires e.status != Verifying
    ensures Apply(Hook, e, ev).entry.status == Verifying <==> ev == SubmitPressed && Complete(e.code)
  {
  }

  /** The page never enters `verifying`: from a state outside it, every run stays outside it. */
  lemma {:induction false} RunNeverVerifying(e: Entry, evs: seq<Event>)
    requires |e.code| == CodeLength
    requires e.status != Verifying
    ensures Run(Standalone, e, evs).status != Verifying
    decreases evs
  {
    if evs != [] {
      RunNeverVerifying(Apply(Standalone, e, evs[0]).entry, evs[1..]);
    }
  }

  /** Every state the page reaches is well formed and is `idle`, `success` or `error`. */
  lemma PageReachable(evs: seq<Event>)
    ensures WellFormed(Run(Standalone, Initial(Standalone), evs))
    ensures Run(Standalone, Initial(Standalone), evs).status in {Idle, Success, Error}
  {
    RunKeepsWellFormed(Standalone, Initial(Standalone), evs);
    RunNeverVerifying(Initial(Standalone), evs);
  }
}
