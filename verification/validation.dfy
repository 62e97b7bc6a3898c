/**
  The field validators on `POST /verify`: `body('code')` must have length
  exactly 6 and must pass the validator library's `isNumeric`. The chain does
  not stop at the first failure, so a code can collect both errors, in chain
  order. Only the `code` field of the body is looked at.

  `isNumeric` belongs to the validator library and is a parameter here,
  constrained by `NumericShape`: it accepts every non-empty all-digit string,
  and it accepts neither the empty string nor anything that contains a
  character other than a digit, a sign or a decimal point.
 */
module Validation {
  import opened Js

  /** A request body: JSON fields, each already in its string form. */
  type Body = map<string, string>

  datatype FieldError = FieldError(location: string, path: string, msg: string)

  const LengthMessage := "Code must be exactly 6 digits"
  const NumericMessage := "Code must contain only numbers"
  const LengthError := FieldError("body", "code", LengthMessage)
  const NumericError := FieldError("body", "code", NumericMessage)

  predicate NumericChar(c: char) {
    IsDigit(c) || c == '+' || c == '-' || c == '.'
  }

  ghost predicate NumericShape(isNumeric: string -> bool) {
    && (forall s {:trigger AllDigits(s)} :: |s| > 0 && AllDigits(s) ==> isNumeric(s))
    && !isNumeric("")
    && (forall s, i {:trigger isNumeric(s), s[i]} :: 0 <= i < |s| && isNumeric(s) ==> NumericChar(s[i]))
  }

  /** The value the validators see: the field's text, or "" when it is missing. */
  function CodeField(body: Body): (code: string)
    ensures "code" in body ==> code == body["code"]
    ensures "code" !in body ==> code == ""
  {
    if "code" in body then body["code"] else ""
  }

  /** The errors the validation chain collects for a request body. */
  function Check(body: Body, isNumeric: string -> bool): (errs: seq<FieldError>)
    ensures forall i :: 0 <= i < |errs| ==> errs[i].location == "body" && errs[i].path == "code"
    ensures LengthError in errs <==> |CodeField(body)| != 6
    ensures NumericError in errs <==> !isNumeric(CodeField(body))
    ensures errs == [] <==> |CodeField(body)| == 6 && isNumeric(CodeField(body))
    ensures |errs| <= 2
    ensures forall i :: 0 <= i < |errs| ==> errs[i] == LengthError || errs[i] == NumericError
    ensures |errs| == 2 ==> errs == [LengthError, NumericError]
  {
    var code := CodeField(body);
    (if |code| != 6 then [LengthError] else []) + (if !isNumeric(code) then [NumericError] else [])
  }

  /** Every six-character all-digit code passes both validators. */
  lemma DigitCodesPass(body: Body, isNumeric: string -> bool)
    requires NumericShape(isNumeric)
    requires |CodeField(body)| == 6 && AllDigits(CodeField(body))
    ensures Check(body, isNumeric) == []
  {
  }

  /** A code holding a letter (or any non-numeric character) fails the numeric check. */
  lemma NonNumericCodeFails(body: Body, isNumeric: string -> bool, i: int)
    requires NumericShape(isNumeric)
    requires 0 <= i < |CodeField(body)| && !NumericChar(CodeField(body)[i])
    ensures NumericError in Check(body, isNumeric)
  {
  }

  /** A missing code fails both checks. */
  lemma MissingCodeFailsBoth(body: Body, isNumeric: string -> bool)
    requires NumericShape(isNumeric)
    requires "code" !in body
    ensures Check(body, isNumeric) == [LengthError, NumericError]
  {
  }

  /** Only the `code` field matters: bodies that agree on it get the same errors. */
  lemma OnlyCodeChecked(b1: Body, b2: Body, isNumeric: string -> bool)
    requires ("code" in b1) == ("code" in b2)
    requires "code" in b1 ==> b1["code"] == b2["code"]
    ensures Check(b1, isNumeric) == Check(b2, isNumeric)
  {
  }
}
