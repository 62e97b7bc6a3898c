/**
  The six-slot code entry form: its state, and the input handlers that the
  verification hook and the standalone page share (`handleChange`,
  `handleKeyDown`, `handlePaste`, `handleSubmit` and the mutation's error
  callback). `focus` is the input last focused: by a handler's `focus()`,
  by a click or Tab (`Focused`), or by typing into an input, which must hold
  focus to receive the key.
 */
module CodeEntry {
  import opened Js

  const CodeLength := 6

  /** The index of one of the six rendered inputs. */
  type SlotIndex = i: int | 0 <= i < CodeLength

  datatype Status = Idle | Verifying | Success | Error

  datatype Entry = Entry(code: seq<string>, focus: int, error: bool, message: string, status: Status)

  /** What a submission hands to the mutation: nothing, or the joined code. */
  datatype Submission = NoRequest | Request(payload: string)

  datatype Submitted = Submitted(entry: Entry, request: Submission)

  /** What the mutation settles with: the resolved body's `status`, or the rejected body's `message`. */
  datatype Reply = Resolved(status: Option<string>) | Rejected(message: Option<string>)

  /**
    One client transition: the new state, the status passed to `onStatusChange`
    (if any), and whether the completion callback (the hook's `onSuccess`, the
    page's route change) fires.
   */
  datatype Step = Step(entry: Entry, notify: Option<Status>, proceed: bool)

  /**
    What the user or the network does to the form. `Typed` and `Pressed` are
    raised by input `index`, which holds focus when the key arrives; `Focused`
    is a click or a Tab onto input `index`.
   */
  datatype Event =
    | Focused(index: SlotIndex)
    | Typed(index: SlotIndex, value: string)
    | Pressed(index: SlotIndex, key: string)
    | Pasted(text: string)
    | SubmitPressed
    | Settled(reply: Reply)

  const FillAllMessage := "Please fill in all digits."
  const FallbackMessage := "Invalid verification code. Please try again."
  const EmptyCode: seq<string> := ["", "", "", "", "", ""]

  /** The input test `/^[0-9]?$/`: empty, or exactly one ASCII digit. */
  predicate IsSlotValue(s: string) {
    s == "" || (|s| == 1 && IsDigit(s[0]))
  }

  predicate CodeShaped(code: seq<string>) {
    |code| == CodeLength && forall i :: 0 <= i < |code| ==> IsSlotValue(code[i])
  }

  /** The invariant every handler keeps: six slot values and a focus on one of them. */
  predicate WellFormed(e: Entry) {
    CodeShaped(e.code) && 0 <= e.focus < CodeLength
  }

  predicate Complete(code: seq<string>) {
    "" !in code
  }

  /** Typing into input `index`: a value other than "" or one digit is ignored. */
  function Change(e: Entry, index: SlotIndex, value: string): (r: Entry)
    requires |e.code| == CodeLength
    ensures !IsSlotValue(value) ==> r == e
    ensures |r.code| == CodeLength
    ensures IsSlotValue(value) ==> r.code[index] == value && !r.error
    ensures forall j :: 0 <= j < CodeLength && j != index ==> r.code[j] == e.code[j]
    ensures r.message == e.message && r.status == e.status
    ensures IsSlotValue(value) && value != "" && index < CodeLength - 1 ==> r.focus == index + 1
    ensures r.focus != e.focus ==> IsSlotValue(value) && value != "" && r.focus == index + 1
    ensures WellFormed(e) ==> WellFormed(r)
  {
    if !IsSlotValue(value) then e
    else
      var e' := e.(code := e.code[index := value], error := false);
      if value != "" && index < CodeLength - 1 then e'.(focus := index + 1) else e'
  }

  /** A key press in input `index`: Backspace, ArrowLeft and ArrowRight act; other keys do not. */
  function KeyDown(e: Entry, index: SlotIndex, key: string): (r: Entry)
    requires |e.code| == CodeLength
    ensures |r.code| == CodeLength
    ensures r.error == e.error && r.message == e.message && r.status == e.status
    ensures key != "Backspace" ==> r.code == e.code
    ensures key != "Backspace" && key != "ArrowLeft" && key != "ArrowRight" ==> r == e
    ensures key == "ArrowLeft" ==> r.focus == (if index > 0 then index - 1 else e.focus)
    ensures key == "ArrowRight" ==> r.focus == (if index < CodeLength - 1 then index + 1 else e.focus)
    ensures key == "Backspace" && e.code[index] != "" ==>
      r.code == e.code[index := ""] && r.focus == e.focus
    ensures key == "Backspace" && e.code[index] == "" && index > 0 ==>
      r.code == e.code[index - 1 := ""] && r.focus == index - 1
    ensures key == "Backspace" && e.code[index] == "" && index == 0 ==> r == e
    ensures WellFormed(e) ==> WellFormed(r)
  {
    if key == "Backspace" then
      if e.code[index] == "" then
        if index > 0 then e.(code := e.code[index - 1 := ""], focus := index - 1) else e
      else
        e.(code := e.code[index := ""])
    else if key == "ArrowLeft" && index > 0 then
      e.(focus := index - 1)
    else if key == "ArrowRight" && index < CodeLength - 1 then
      e.(focus := index + 1)
    else
      e
  }

  /** The digits of a clipboard text, cut to the first six: `replace(/\D/g, "").slice(0, 6)`. */
  function PastedDigits(text: string): (d: string)
    ensures AllDigits(d)
    ensures |d| == if |KeepDigits(text)| < CodeLength then |KeepDigits(text)| else CodeLength
    ensures d <= KeepDigits(text)
  {
    var all := KeepDigits(text);
    if |all| < CodeLength then all else all[..CodeLength]
  }

  /** Pasting: acts only when six digits survive the filter; then they become the code. */
  function Paste(e: Entry, text: string): (r: Entry)
    ensures |KeepDigits(text)| < CodeLength ==> r == e
    ensures |KeepDigits(text)| >= CodeLength ==>
      && CodeShaped(r.code)
      && (forall i :: 0 <= i < CodeLength ==> r.code[i] == [KeepDigits(text)[i]])
      && Join(r.code) == KeepDigits(text)[..CodeLength]
      && r.focus == CodeLength - 1 && !r.error
      && r.message == e.message && r.status == e.status
    ensures WellFormed(e) ==> WellFormed(r)
  {
    var d := PastedDigits(text);
    if |d| == CodeLength then
      SplitJoin(d);
      e.(code := Split(d), error := false, focus := CodeLength - 1)
    else
      e
  }

  /** `code.findIndex((digit) => digit === "")` on a code that has an empty slot. */
  function FirstEmpty(code: seq<string>): (i: nat)
    requires "" in code
    ensures i < |code| && code[i] == ""
    ensures forall j :: 0 <= j < i ==> code[j] != ""
  {
    if code[0] == "" then 0 else 1 + FirstEmpty(code[1..])
  }

  /** Submitting: an incomplete code flags an error locally; a complete one is joined and sent. */
  function Submit(e: Entry): (r: Submitted)
    requires |e.code| == CodeLength
    ensures r.request.NoRequest? <==> !Complete(e.code)
    ensures !Complete(e.code) ==>
      && r.entry.code == e.code && r.entry.status == e.status
      && r.entry.error && r.entry.message == FillAllMessage
      && 0 <= r.entry.focus < CodeLength && e.code[r.entry.focus] == ""
      && forall j :: 0 <= j < r.entry.focus ==> e.code[j] != ""
    ensures Complete(e.code) ==> r.entry == e
    ensures r.request.Request? && CodeShaped(e.code) ==>
      && |r.request.payload| == CodeLength
      && AllDigits(r.request.payload)
      && (forall i :: 0 <= i < CodeLength ==> e.code[i] == [r.request.payload[i]])
      && Split(r.request.payload) == e.code
    ensures WellFormed(e) ==> WellFormed(r.entry)
  {
    if !Complete(e.code) then
      Submitted(e.(error := true, message := FillAllMessage, focus := FirstEmpty(e.code)), NoRequest)
    else
      JoinSplitShaped(e.code);
      Submitted(e, Request(Join(e.code)))
  }

  /** A complete, well-shaped code holds one digit per slot, so joining and splitting it round-trips. */
  lemma JoinSplitShaped(code: seq<string>)
    ensures CodeShaped(code) && Complete(code) ==> Split(Join(code)) == code
  {
    if CodeShaped(code) && Complete(code) {
      JoinSplit(code);
    }
  }

  /**
    The mutation's `onError`, the same in the hook and on the page: reset the
    form and show the server's message or the generic text. The status change
    is not reported to the caller.
   */
  function OnError(e: Entry, serverMessage: Option<string>): (r: Step)
    ensures WellFormed(r.entry) && !Complete(r.entry.code)
    ensures forall i :: 0 <= i < |r.entry.code| ==> r.entry.code[i] == ""
    ensures r.entry.focus == 0 && r.entry.error && r.entry.status == Error
    ensures TruthyString(serverMessage) ==> r.entry.message == serverMessage.value
    ensures !TruthyString(serverMessage) ==> r.entry.message == FallbackMessage
    ensures r.entry.message != ""
    ensures r.notify == None && !r.proceed
  {
    Step(Entry(EmptyCode, 0, true, OrString(serverMessage, FallbackMessage), Error), None, false)
  }
}
