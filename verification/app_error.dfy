/**
  Error objects as the server's error middleware sees them, and the
  `AppError` constructor. The constructor keeps the given status code when it
  is truthy and uses 500 otherwise, and derives `status` from the decimal text
  of the code it was GIVEN: "error" when that text starts with '4', "fail"
  otherwise. It always marks the error operational. The stack trace the
  runtime captures is a parameter.
 */
module AppErrors {
  import opened Js

  /**
    The fields of a thrown error that the middleware reads. `None` stands for
    `undefined`.
   */
  datatype ErrorObject = ErrorObject(
    message: string,
    name: Option<string>,
    statusCode: Option<int>,
    status: Option<string>,
    isOperational: Option<bool>,
    flag: Option<string>,
    stack: string)

  const InternalServerError := 500

  /** The template literal `${statusCode}`, which reads "undefined" for a missing code. */
  function CodeText(statusCode: Option<int>): (t: string)
    ensures |t| > 0
    ensures t[0] == '4' <==> statusCode.Some? && LeadingFour(statusCode.value)
  {
    match statusCode
    case None => "undefined"
    case Some(n) =>
      NumberTextStartsWithFour(n);
      NumberText(n)
  }

  /** `new AppError(message, statusCode, name, flag)`. */
  function NewAppError(message: string, statusCode: Option<int>, name: Option<string>,
                       flag: Option<string>, trace: string): (e: ErrorObject)
    ensures e.statusCode == Some(if TruthyNumber(statusCode) then statusCode.value else InternalServerError)
    ensures e.status == Some("error") <==> statusCode.Some? && LeadingFour(statusCode.value)
    ensures e.status == Some("error") || e.status == Some("fail")
    ensures e.isOperational == Some(true)
    ensures e.message == message && e.name == name && e.flag == flag && e.stack == trace
  {
    ErrorObject(
      message,
      name,
      Some(if TruthyNumber(statusCode) then statusCode.value else InternalServerError),
      Some(if CodeText(statusCode)[0] == '4' then "error" else "fail"),
      Some(true),
      flag,
      trace)
  }

  /** For a three-digit HTTP status code, the leading-'4' rule is exactly the 4xx class. */
  lemma HttpCodeStatus(code: int)
    requires 100 <= code <= 999
    ensures LeadingFour(code) <==> 400 <= code <= 499
  {
    assert Pow10(1) == 10 && Pow10(2) == 100;
    if 400 <= code <= 499 {
      assert 4 * Pow10(2) <= code < 5 * Pow10(2);
    }
    forall k: nat | k != 2
      ensures !(4 * Pow10(k) <= code < 5 * Pow10(k))
    {
      if k > 2 {
        Pow10AtLeast1000(k);
      }
    }
  }

  lemma {:induction false} Pow10AtLeast1000(k: nat)
    requires k >= 3
    ensures Pow10(k) >= 1000
  {
    if k > 3 {
      Pow10AtLeast1000(k - 1);
    } else {
      assert Pow10(3) == 1000;
    }
  }

  /** A 4xx `AppError` gets status "error"; a 5xx one, or one without a code, gets "fail". */
  lemma StatusByHttpClass(message: string, statusCode: Option<int>, name: Option<string>,
                          flag: Option<string>, trace: string)
    requires statusCode.Some? ==> 100 <= statusCode.value <= 999
    ensures var e := NewAppError(message, statusCode, name, flag, trace);
      && (e.status == Some("error") <==> statusCode.Some? && 400 <= statusCode.value <= 499)
      && (statusCode.None? ==> e.statusCode == Some(InternalServerError) && e.status == Some("fail"))
  {
    if statusCode.Some? {
      HttpCodeStatus(statusCode.value);
    }
  }
}
