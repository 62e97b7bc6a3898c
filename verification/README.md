# One-time-code verification, modelled in Dafny

This project models the logic of a small one-time-code verification flow.
On the client, a six-slot input form takes digits one at a time or pasted as a
whole. It moves focus between slots and submits the joined code. It then
reacts to the server's reply. On the server, `POST /verify` checks the
`code` field's shape and applies one domain rule: a sixth digit of 7 is
rejected. An `AppError` and the error middleware turn failures into JSON
replies.

Everything is a pure function over immutable values. Each event handler is
a transition on an `Entry` record: six slot strings, focus, error flag,
message and status. `focus` is the input last focused. The handlers move
it with `focus()`. The user moves it with a click or Tab (`Focused`), and
every keystroke on input i lands on input i, which therefore holds focus
before the handler runs. A thrown
error is a tagged outcome. The HTTP reply is a value.

Modules, one file each:

- `Js` (`js.dfy`): JavaScript primitives the code relies on. These are
  truthiness and `||` defaults, `replace(/\D/g, "")`, `split("")`,
  `join("")`, and the decimal text `${n}` of an integer.
- `CodeEntry` (`code_entry.dfy`): the form state and the handlers shared by
  `client/hooks/useVerification.ts` and `client/app/page.tsx`. The two files
  hold identical copies of `handleChange`, `handleKeyDown`, `handlePaste`
  and `onError`, and of the empty-slot check at the start of `handleSubmit`.
  They are defined once here and cited at the hook's lines. The page's
  copies are at `client/app/page.tsx:71-135` and `client/app/page.tsx:30-39`.
  What `handleSubmit` does with a complete code differs: the hook calls
  `mutate` at once, the page a debounced function.
- `Verification` (`verification.dfy`): the hook's mutation callbacks.
  `onStatusChange` reports and the `onSuccess` callback is an output flag.
- `Page` (`page.dfy`): how the standalone page differs from the hook.
  - Its initial message is the generic failure text.
  - It never enters `verifying`.
  - It changes route as soon as the reply succeeds.
- `Form` (`form.dfy`): one event runner for both copies, with the copy as a
  parameter (`Hook` or `Standalone`), and the invariants over event
  sequences.
- `Validation` (`validation.dfy`): the `body('code')` validator chain.
- `AppErrors` (`app_error.dfy`): the `AppError` constructor.
- `ErrorMiddleware` (`error_middleware.dfy`): `handler` and `sendError`.
- `Controller` (`controller.dfy`): `verifyOTP` and the complete HTTP reply
  for one request.
- `EndToEnd` (`end_to_end.dfy`): the HTTP client's settle rule. It also
  holds the cross-component lemmas. Every payload the form submits passes
  validation, and the full submit → server → callback round trip is proved.

Parameters stand for what the model cannot see:

- The validator library's `isNumeric` is a function parameter. It is bounded
  by `Validation.NumericShape`: it accepts every non-empty all-digit string,
  and it rejects the empty string and any string with a character other than
  a digit, `+`, `-` or `.`.
- The runtime's captured stack trace is a `trace` string.
- `process.env.ENV` is an optional string.

The model follows the code in these places, where it departs from the
flow's intended design:

- A paste that leaves fewer than six digits changes nothing. It does not
  fill slots partly.
- The error reply's `message` is the error's own message in every
  environment. No generic message replaces it in production.
- The shape check on the server is whatever the validator library's
  `isNumeric` accepts. That can include a sign or a decimal point. The model
  does not claim that only digit strings pass.
- `AppError` gives status "error" to every code whose decimal text starts
  with 4, and "fail" to every other code. So 4, 42 and 4000 get "error" as
  well as 400-499. Among three-digit HTTP codes this is exactly 4xx.
- On the hook, a resolved reply whose `status` is not "success" leaves the
  status at `verifying`.
- The hook's `onError` does not report the `error` status through
  `onStatusChange`.

## Model

| member | source | states |
|---|---|---|
| `Js.OrString` | client/hooks/useVerification.ts:42-45 | the or-default gives the string when it is defined and non-empty, else the fallback. The result is empty only when both are, so a non-empty fallback means a message is always shown |
| `Js.KeepDigits` | client/hooks/useVerification.ts:91-93 | the filtered text holds only ASCII digits taken from the input, and is no longer than the input |
| `Js.KeepDigitsAppend` | client/hooks/useVerification.ts:93 | the digit filter distributes over concatenation, so digits keep their relative order |
| `Js.KeepDigitsFixed` | client/hooks/useVerification.ts:93 | the filter leaves a text unchanged exactly when the text is all digits |
| `Js.JoinSingles` | client/hooks/useVerification.ts:113 | joining one-character slots gives a string whose character i comes from slot i |
| `Js.SplitJoin` | client/hooks/useVerification.ts:96 | joining the pieces of `split("")` gives the original string back |
| `Js.JoinSplit` | client/hooks/useVerification.ts:113 | splitting the joined one-character slots gives the slots back |
| `Js.NumberTextStartsWithFour` | api/src/utils/appError.ts:14 | the decimal text of n starts with '4' exactly when n is in [4·10^k, 5·10^k) for some k |
| `CodeEntry.Change` | client/hooks/useVerification.ts:49-60 | a value other than "" or one digit changes nothing. An accepted value writes only the target slot and clears the error. Focus moves, to index+1, only for a non-empty value with index < 5. Slot shape is preserved |
| `CodeEntry.KeyDown` | client/hooks/useVerification.ts:62-87 | Backspace on a filled slot clears only it and keeps focus. On an empty slot it clears the previous slot and focuses it; on empty slot 0 it does nothing. Arrows move focus by one within [0,5] and never touch the code. Other keys change nothing. Error, message and status are kept |
| `CodeEntry.PastedDigits` | client/hooks/useVerification.ts:91-94 | the pasted digits are a prefix of the filtered text, of length min(6, its length) |
| `CodeEntry.Paste` | client/hooks/useVerification.ts:89-101 | with at least six digits after filtering, the code becomes the first six, one per slot, in order. Focus is 5 and the error is cleared. With fewer, nothing changes |
| `CodeEntry.FirstEmpty` | client/hooks/useVerification.ts:109 | the index returned holds "" and no earlier slot does |
| `CodeEntry.Submit` | client/hooks/useVerification.ts:103-114 | no request is made exactly when a slot is empty. Then the error is set, the message is "Please fill in all digits." and focus is the first empty slot. Otherwise the state is unchanged and the payload is six digits, character i being slot i |
| `CodeEntry.OnError` | client/hooks/useVerification.ts:37-46 | after a failed request every slot is empty, focus is 0, the error is set and status is `error`. The message is the server's non-empty message, or else the generic failure text. Nothing is reported to the caller and no callback fires |
| `Verification.BeginVerify` | client/hooks/useVerification.ts:24-27 | starting the request sets and reports `verifying` and changes nothing else |
| `Verification.OnSuccess` | client/hooks/useVerification.ts:29-36 | `success` is entered, reported and followed by the callback only when the body's status is "success". Any other body changes nothing |
| `Verification.SubmitForm` | client/hooks/useVerification.ts:106-113 | the status becomes `verifying` exactly when the code is complete, and then nothing else changes. An incomplete code gets the local error of `Submit` |
| `Page.OnSuccess` | client/app/page.tsx:23-29 | a body with status "success" sets `success` and changes route. Any other body changes nothing. No status is reported |
| `Page.SubmitForm` | client/app/page.tsx:127-139 | submitting never changes the status. A complete code leaves the state as it was. An incomplete one sets the local error and focuses the first empty slot, as the hook does |
| `Form.Apply` | client/hooks/useVerification.ts:49-114 | on either copy, every event keeps the six-slot shape and the focus range. On the page, the status is kept or becomes `success` or `error` |
| `Form.FocusFollowsKeystrokes` | client/hooks/useVerification.ts:57-85 | after a keystroke on input i, focus is i or a neighbour. It moves forward exactly on an accepted digit or ArrowRight below slot 5. It moves back exactly on ArrowLeft or Backspace over an empty slot, above slot 0 |
| `Form.RunKeepsWellFormed` | client/hooks/useVerification.ts:49-101 | on either copy, any sequence of events from a well-formed state ends in a well-formed state |
| `Form.ReachableWellFormed` | client/hooks/useVerification.ts:17-21 | on either copy, every state reachable from the initial one is well formed |
| `Form.SuccessOnlyFromSuccessReply` | client/hooks/useVerification.ts:29-32 | on either copy, from any other status, `success` is entered by exactly one event: a resolved reply with status "success" |
| `Form.VerifyingOnlyFromSubmit` | client/hooks/useVerification.ts:24-25 | on the hook, `verifying` is entered exactly by submitting a complete code |
| `Form.RunNeverVerifying` | client/app/page.tsx:23-45 | no sequence of page events from a non-`verifying` state reaches `verifying` |
| `Form.PageReachable` | client/app/page.tsx:9-50 | from the page's initial state, every reachable state is well formed with status `idle`, `success` or `error` |
| `Validation.Check` | api/src/routes/index.ts:10-14 | the length error is reported exactly when the code's length is not 6. The numeric error is reported exactly when `isNumeric` rejects it. No errors means both checks pass. The list holds one entry per failed check, at most two, in chain order, and every error is on `code` in the body |
| `Validation.DigitCodesPass` | api/src/routes/index.ts:11-14 | every six-character all-digit code passes both checks |
| `Validation.NonNumericCodeFails` | api/src/routes/index.ts:13-14 | a code with a character outside digits, sign and point gets "Code must contain only numbers" |
| `Validation.MissingCodeFailsBoth` | api/src/routes/index.ts:10-14 | a body without `code` gets both errors, the length error first |
| `Validation.OnlyCodeChecked` | api/src/routes/index.ts:10 | bodies that agree on `code` get the same errors |
| `AppErrors.CodeText` | api/src/utils/appError.ts:14 | the text of the given code starts with '4' exactly when a code was given and its leading digit is 4 |
| `AppErrors.NewAppError` | api/src/utils/appError.ts:10-19 | statusCode is the given code when truthy, else 500. Status is "error" exactly when the given code has leading digit 4, else "fail". The error is operational. Message, name and flag are kept |
| `AppErrors.HttpCodeStatus` | api/src/utils/appError.ts:14 | for three-digit codes, leading digit 4 is exactly the range 400-499 |
| `AppErrors.StatusByHttpClass` | api/src/utils/appError.ts:13-14 | a 4xx code gives "error". Any other three-digit code gives "fail". No code gives 500 and "fail" |
| `ErrorMiddleware.Defaults` | api/src/middleware/error.ts:44-46 | a falsy statusCode becomes 500 and a falsy status becomes "error". Truthy values and all other fields are kept |
| `ErrorMiddleware.SendErrorAsWritten` | api/src/middleware/error.ts:5-42 | as written, the body always carries the stack. The HTTP status is the error's code, or 500. Only non-operational errors are logged |
| `ErrorMiddleware.StackSentOutsideDevelopment` | api/src/middleware/error.ts:8-36 | outside development, the written code sends the stack and the corrected one does not |
| `ErrorMiddleware.SendError` | api/src/middleware/error.ts:5-42 | corrected: the body carries the stack exactly in development. Status, message, code, name, flag and isOperational are copied. The HTTP status is the error's code, or 500. The message is logged exactly when the error is not operational |
| `ErrorMiddleware.CorrectionOnlyTouchesStack` | api/src/middleware/error.ts:28-36 | the written and corrected replies agree on everything but the stack, and agree completely in development |
| `ErrorMiddleware.HandleAsWritten` | api/src/middleware/error.ts:44-48 | as written: the HTTP status and the body's statusCode are the error's code, or 500. The body status is the error's, or "error". The stack is always sent. The error is logged exactly when it is not operational |
| `ErrorMiddleware.Handle` | api/src/middleware/error.ts:44-48 | with the corrected sendError: the HTTP status and the body's statusCode are the error's code, or 500. The body status is the error's, or "error". The stack is sent exactly in development. The error is logged exactly when it is not operational |
| `ErrorMiddleware.HandleCorrectionOnlyTouchesStack` | api/src/middleware/error.ts:13-36 | the handler with the corrected sendError agrees with the written one on everything but the stack, and is identical exactly in development |
| `ErrorMiddleware.AppErrorHandled` | api/src/middleware/error.ts:16-20 | an `AppError` is never logged, and its reply keeps the constructor's status and code |
| `Controller.VerifyOtp` | api/src/controllers/otpVerificationController.ts:7-19 | exactly one of three outcomes. A validation failure carries the errors. A valid code with sixth character '7' raises "Verification Error" with 400 and status "error". Any other valid code is "Verification Successful" |
| `Controller.SixthCharacterDecides` | api/src/controllers/otpVerificationController.ts:13-18 | two valid codes with the same sixth character get the same outcome |
| `Controller.ServeAsWritten` | api/src/controllers/otpVerificationController.ts:8-18 | as written: invalid gives 400 with status "error" and the error list. Valid with '7' gives 400 with "Verification Error" and the stack in every environment. Otherwise 200 with "success" and "Verification Successful". Nothing is logged |
| `Controller.Serve` | api/src/controllers/otpVerificationController.ts:8-18 | with the corrected sendError: invalid gives 400 with status "error" and the error list. Valid with '7': 400 with "Verification Error", stack only in development. Otherwise: 200 with "success" and "Verification Successful". Nothing is logged |
| `Controller.ServeCorrectionOnlyTouchesStack` | api/src/middleware/error.ts:13-36 | the corrected and written replies to any request agree on HTTP status, logging and every body field but a domain failure's stack |
| `EndToEnd.SubmittedCodePassesValidation` | api/src/routes/index.ts:11-14 | every payload a well-formed form submits passes the server's validation |
| `EndToEnd.ServerDecidesOnSixthSlot` | api/src/controllers/otpVerificationController.ts:14 | for a submitted code, the server rejects exactly when slot 5 holds "7" |
| `EndToEnd.ReplyToSubmitted` | api/src/controllers/otpVerificationController.ts:9-18 | the client receives a rejection with "Verification Error" when slot 5 is "7", and a resolved "success" otherwise |
| `EndToEnd.ServedReplySettles` | client/lib/api.ts:11-14 | with axios's default rule that only a 2xx reply resolves: any request resolves with "success" exactly when the code is verified. A validation failure rejects with no message. A domain failure rejects with "Verification Error" |
| `EndToEnd.ClientIgnoresStack` | client/hooks/useVerification.ts:29-45 | the stack the written middleware leaks never changes what the client settles with |
| `EndToEnd.HookRoundTrip` | client/hooks/useVerification.ts:23-46 | submit, serve, settle on the hook. Slot 5 "7" ends in `error`, empty slots, focus 0 and "Verification Error". Otherwise it ends in `success` with the callback fired |
| `EndToEnd.PageRoundTrip` | client/app/page.tsx:16-40 | the same round trip on the page, which never leaves its state on submit |
| `EndToEnd.ValidationFailureShowsFallback` | client/hooks/useVerification.ts:42-45 | a validation failure's body has no message, so the form shows the generic failure text |
| `EndToEnd.NoReplyShowsFallback` | client/hooks/useVerification.ts:37-45 | a request with no reply ends in `error` with the generic failure text |
| `EndToEnd.Scenario123457` | api/src/controllers/otpVerificationController.ts:14-16 | submitting "123457" yields 400, and the form resets showing "Verification Error" |
| `EndToEnd.Scenario123456` | api/src/controllers/otpVerificationController.ts:18 | "123456" yields 200 with "Verification Successful", and the hook enters `success` and fires its callback |
| `EndToEnd.Scenario12a456` | api/src/routes/index.ts:13-14 | "12a456" fails only the numeric check, with a 400 listing that one error |

## Left out

- Rate limiting (`api/src/middleware/rateLimiter.ts`): quota counting lives inside the rate-limit library, which is not part of this model. Only a localized retry time is formatted in that file.
- Server bootstrap, CORS, security headers, request logging and the 404 catch-all (`api/src/server.ts`) and route wiring (`api/src/startup/initRouter.ts`): framework glue.
- `api/src/utils/catchAsync.ts`: the thrown `AppError` is the `DomainFailed` outcome. In the program as written it reaches `handler` through `next(err)`, which is `Controller.ServeAsWritten` passing it to `ErrorMiddleware.HandleAsWritten`. `Controller.Serve` passes it to the corrected `ErrorMiddleware.Handle` instead.
- The validator library's exact `isNumeric` and `isLength` rules: `isNumeric` is a parameter bounded by `Validation.NumericShape`. Length is the count of characters, without the library's special counting of variation selectors.
- Non-string JSON values for `code`: the body maps field names to strings, and a missing field is validated as "". A number cannot be represented. In the source, `{"code": 123457}` passes validation, because the validators read the number's text. The controller then reads `code[5]` of a number, which is `undefined`, so a numeric `code` always skips the '7' rule and gets 200. An array cannot be represented either. The library's standard validators run once per array element, so an array `code` can draw more than two errors, which `Validation.Check` does not cover. `["123457"]` also skips the '7' rule, because `code[5]` of a one-element array is `undefined`.
- Timing: the page's 300 ms debounce (`client/app/page.tsx:53-65`) and the hook's 400 ms wait before `onSuccess`. The `proceed` output stands for the callback or route change having fired.
- DOM details: real `focus()` calls, `preventDefault`, rendering, and the `disabled` attribute on inputs while a request is pending. The model accepts every event in every status, so it over-approximates what a user can do while `verifying`.
- The submit button's `disabled` condition, which includes `code.includes("")` (`client/app/page.tsx:217`). The model lets an incomplete code be submitted, which over-approximates the UI: the empty-slot branch of `handleSubmit` is reached in the model even though the button blocks it.
- Focus after a failed request: `onError` focuses input 0, and the model sets `focus` to 0. In the browser the inputs may still be `disabled` while the request is pending, and then the call does nothing. That depends on the order in which the query library clears its pending flag, which is not part of this model.
- Fields of express-validator's error objects beyond location, path and message: `FieldError` leaves out `type` and `value`.
- The browser's own Backspace action, which also fires a change event with "": only the key handler is modelled.
- The network and axios transport (`client/lib/api.ts`), its 10-second timeout and the online/offline listeners (`client/hooks/useNetworkStatus.ts`). A lost request is `EndToEnd.NoReply`.
- `isPending` and `isError`, which the hook exposes for rendering only.
- Focus outside the six inputs: clicking the submit button or tabbing past the last input takes DOM focus off the inputs. `focus` keeps the last input that held it.
- Focus on mount: the page focuses slot 0 when it mounts and the hook's form focuses nothing. Both start with focus 0 in the model.
- JavaScript number details: status codes are unbounded integers. `NaN`, fractions, and exponent notation for very large numbers are not modelled. Exponent notation keeps the leading digit, so the '4' rule is unaffected.
- Express rejecting HTTP status codes outside 100-999 when a reply is sent.
- ErrorMiddleware.Handle: uses the corrected sendError, which sends the stack only in development. The handler as written is `ErrorMiddleware.HandleAsWritten`.
- Controller.Serve: passes the domain failure to the corrected `ErrorMiddleware.Handle`. The reply as written is `Controller.ServeAsWritten`.
- Logging detail: `ErrorMiddleware.Sent.logged` carries only the logged message. The request metadata (ip, app title) and the unconditional `console.error` of every reply are not modelled.
- Other own properties an arbitrary thrown error could spread into the reply: only the fields of `AppErrors.ErrorObject` are modelled.

## Findings

| source | as written | input that shows it | evidently intended | confidence | as-written member | corrected member |
|---|---|---|---|---|---|---|
| api/src/middleware/error.ts:13 | `customError` gets `stack: error.stack`, and `errorResponse` spreads `customError`, so the stack is in the JSON body in every environment | any `AppError` sent with `ENV` = "production", for example the "Verification Error" for code "123457" | the stack is in the body only when `ENV` is "development" (the `if` at lines 34-36) | high, not executed | `ErrorMiddleware.SendErrorAsWritten` (exhibited by `ErrorMiddleware.StackSentOutsideDevelopment`; composed in `ErrorMiddleware.HandleAsWritten` and `Controller.ServeAsWritten`) | `ErrorMiddleware.SendError` (used by `ErrorMiddleware.Handle` and `Controller.Serve`) |
