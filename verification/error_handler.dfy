/** `GlobalExceptionMiddleware`: runs the wrapped handler and turns an
    exception it raises into an error envelope, choosing the first `except`
    clause whose class the exception is an instance of, and logging one
    warning on the way. */
module ErrorHandler {
  import opened Wrappers
  import opened PyValues
  import opened Exceptions
  import opened ApiResponse

  datatype Level = Warning

  /** One line handed to the logger. */
  datatype LogEntry = LogEntry(level: Level, message: string)

  /** The four `except` clauses the middleware knows. */
  datatype Arm = PermissionDeniedArm | ValidationErrorArm | ExceptionArm | CustomExceptionArm

  /** The class an `except` clause names. */
  function Catches(arm: Arm): Class
  {
    match arm
    case PermissionDeniedArm => PermissionDeniedClass
    case ValidationErrorArm => ValidationErrorClass
    case ExceptionArm => ExceptionClass
    case CustomExceptionArm => CustomExceptionClass
  }

  /** The clauses in the order the middleware lists them. */
  const AsWritten: seq<Arm> := [PermissionDeniedArm, ValidationErrorArm, ExceptionArm, CustomExceptionArm]

  /** The same clauses with the business exception tried before the
      catch-all. */
  const Corrected: seq<Arm> := [PermissionDeniedArm, ValidationErrorArm, CustomExceptionArm, ExceptionArm]

  /** What the wrapped handler did: returned a response or raised. */
  datatype HandlerResult = Returned(response: Response) | Raised(ex: Exc)

  /** What the middleware does: answer with a response, having logged the
      given lines, or let an exception out, having logged the given lines:
      the raised one when no clause caught it, or one raised inside a
      clause. */
  datatype Outcome = Responded(response: Response, log: seq<LogEntry>) | Propagated(ex: Exc, log: seq<LogEntry>)

  /** What building a response with a status outside 100..599 raises. */
  const StatusValueError: Exc := OtherException("ValueError", true, BadStatusText)

  /** What building a JSON response raises for a value `json.dumps` cannot
      encode. */
  function EncodeError(v: Value): (e: Exc)
    requires !Jsonable(v)
    ensures e.OtherException? && e.name == "TypeError" && e.isException
  {
    OtherException("TypeError", true, "Object of type " + v.typeName + " is not JSON serializable")
  }

  /** Index of the first clause, at `from` or later, that catches `e`. */
  function FirstMatchFrom(arms: seq<Arm>, e: Exc, from: nat): (r: Option<nat>)
    requires from <= |arms|
    ensures r.Some? ==> from <= r.value < |arms| && IsInstance(e, Catches(arms[r.value]))
    ensures r.Some? ==> forall j :: from <= j < r.value ==> !IsInstance(e, Catches(arms[j]))
    ensures r.None? ==> forall j :: from <= j < |arms| ==> !IsInstance(e, Catches(arms[j]))
    decreases |arms| - from
  {
    if from == |arms| then None
    else if IsInstance(e, Catches(arms[from])) then Some(from)
    else FirstMatchFrom(arms, e, from + 1)
  }

  function FirstMatch(arms: seq<Arm>, e: Exc): Option<nat>
  {
    FirstMatchFrom(arms, e, 0)
  }

  /** The fixed messages of the three clauses that answer on their own. */
  const DeniedMessage: JsonValue := JsonStr("You do not permissions to perform this activity")
  const InvalidMessage: JsonValue := JsonStr("Validation error")
  const InternalMessage: JsonValue := JsonStr("Internal Server Error")

  /** The body of one of the three `except` clauses that answer with a
      fixed message and status: log one warning naming the clause, then
      build the error envelope with `str(ex)` as data. */
  function FixedArm(arm: Arm, e: Exc): (o: Outcome)
    requires arm != CustomExceptionArm
    ensures o.Responded? && |o.log| == 1 && o.log[0].level == Warning
    ensures ReadEnvelope(o.response).Some? && !ReadEnvelope(o.response).value.success
    ensures ReadEnvelope(o.response).value.data == PyStr(ExcStr(e))
  {
    var text := JsonStr(ExcStr(e));
    match arm
    case PermissionDeniedArm =>
      Responded(
        Error(message := DeniedMessage, status := 403, data := text),
        [LogEntry(Warning, "Permission Denied: " + ExcStr(e))])
    case ValidationErrorArm =>
      Responded(
        Error(message := InvalidMessage, data := text, status := 400),
        [LogEntry(Warning, "Validation Error: " + ExcStr(e))])
    case ExceptionArm =>
      Responded(
        Error(message := InternalMessage, data := text, status := 500),
        [LogEntry(Warning, "Exception Occured: " + ExcStr(e))])
  }

  /** The body of the `except CustomException` clause: log one warning, then
      build the error envelope from the exception's own message, tag and
      status. Building the response first encodes the body, message before
      data, and raises `TypeError` for a value it cannot encode; then it
      raises `ValueError` for a status outside 100..599. Either leaves the
      clause after the warning was logged. */
  function CustomArm(e: Exc): (o: Outcome)
    requires e.CustomException?
    ensures o.log == [LogEntry(Warning, "Custom Error: " + ExcStr(e))]
    ensures o.Responded? <==> Jsonable(e.message) && Jsonable(e.data) && IsStatusCode(e.status)
    ensures o.Responded? ==> ReadEnvelope(o.response) == Some(Envelope(false, e.message, e.data, e.status))
    ensures !Jsonable(e.message) ==> o == Propagated(EncodeError(e.message), o.log)
    ensures Jsonable(e.message) && !Jsonable(e.data) ==> o == Propagated(EncodeError(e.data), o.log)
    ensures Jsonable(e.message) && Jsonable(e.data) && !IsStatusCode(e.status) ==>
              o == Propagated(StatusValueError, o.log)
  {
    var log := [LogEntry(Warning, "Custom Error: " + ExcStr(e))];
    if !Jsonable(e.message) then
      Propagated(EncodeError(e.message), log)
    else if !Jsonable(e.data) then
      Propagated(EncodeError(e.data), log)
    else if IsStatusCode(e.status) then
      Responded(Error(message := e.message, data := e.data, status := e.status), log)
    else
      Propagated(StatusValueError, log)
  }

  /** The body of one `except` clause. Only the business-exception clause can
      fail to answer: it lets out `TypeError` or `ValueError` when its
      message, tag or status cannot go into a response. */
  function RunArm(arm: Arm, e: Exc): (o: Outcome)
    requires IsInstance(e, Catches(arm))
    ensures |o.log| == 1 && o.log[0].level == Warning
    ensures o.Responded? <==>
              arm != CustomExceptionArm
              || (e.CustomException? && Jsonable(e.message) && Jsonable(e.data) && IsStatusCode(e.status))
    ensures o.Responded? ==> ReadEnvelope(o.response).Some? && !ReadEnvelope(o.response).value.success
  {
    if arm == CustomExceptionArm then CustomArm(e) else FixedArm(arm, e)
  }

  /** The middleware with a given clause order. */
  function Handle(arms: seq<Arm>, result: HandlerResult): Outcome
  {
    match result
    case Returned(response) => Responded(response, [])
    case Raised(e) =>
      match FirstMatch(arms, e)
      case None => Propagated(e, [])
      case Some(i) => RunArm(arms[i], e)
  }

  /** `GlobalExceptionMiddleware.__call__` as written. */
  function Middleware(result: HandlerResult): (o: Outcome)
    // a normal return passes through untouched, with nothing logged
    ensures result.Returned? ==> o == Responded(result.response, [])
    // only exceptions outside `Exception` escape
    ensures o.Propagated? <==> result.Raised? && !IsInstance(result.ex, ExceptionClass)
    ensures o.Propagated? ==> o.ex == result.ex && o.log == []
    // every caught exception: exactly one warning, and an error envelope
    ensures result.Raised? && o.Responded? ==>
              && |o.log| == 1 && o.log[0].level == Warning
              && ReadEnvelope(o.response).Some?
              && !ReadEnvelope(o.response).value.success
  {
    Handle(AsWritten, result)
  }

  /** The four outcomes of the middleware as written, one per kind of
      exception: permission denial, validation failure, business exception
      and any other `Exception`. */
  lemma MiddlewareClassification(e: Exc)
    ensures e.PermissionDenied? ==>
              && ReadEnvelope(Middleware(Raised(e)).response)
                 == Some(Envelope(false, DeniedMessage, JsonStr(ExcStr(e)), 403))
              && Middleware(Raised(e)).log == [LogEntry(Warning, "Permission Denied: " + ExcStr(e))]
    ensures e.ValidationError? ==>
              && ReadEnvelope(Middleware(Raised(e)).response)
                 == Some(Envelope(false, InvalidMessage, JsonStr(ExcStr(e)), 400))
              && Middleware(Raised(e)).log == [LogEntry(Warning, "Validation Error: " + ExcStr(e))]
    ensures (e.CustomException? || (e.OtherException? && e.isException)) ==>
              && ReadEnvelope(Middleware(Raised(e)).response)
                 == Some(Envelope(false, InternalMessage, JsonStr(ExcStr(e)), 500))
              && Middleware(Raised(e)).log == [LogEntry(Warning, "Exception Occured: " + ExcStr(e))]
  {
    var text := JsonStr(ExcStr(e));
    if e.PermissionDenied? {
      assert FirstMatch(AsWritten, e) == Some(0);
      assert Middleware(Raised(e)) == FixedArm(PermissionDeniedArm, e);
      assert ReadEnvelope(Error(DeniedMessage, text, 403)) == Some(Envelope(false, DeniedMessage, text, 403));
    } else if e.ValidationError? {
      assert FirstMatch(AsWritten, e) == Some(1);
      assert Middleware(Raised(e)) == FixedArm(ValidationErrorArm, e);
      assert ReadEnvelope(Error(InvalidMessage, text, 400)) == Some(Envelope(false, InvalidMessage, text, 400));
    } else if e.CustomException? || (e.OtherException? && e.isException) {
      assert FirstMatch(AsWritten, e) == Some(2);
      assert Middleware(Raised(e)) == FixedArm(ExceptionArm, e);
      assert ReadEnvelope(Error(InternalMessage, text, 500)) == Some(Envelope(false, InternalMessage, text, 500));
    }
  }

  /** The `except CustomException` clause can never be chosen: whatever is
      raised, the first matching clause is not the business-exception one,
      because `except Exception` comes first and catches every instance of
      its subclass. */
  lemma CustomArmUnreachable(e: Exc)
    ensures FirstMatch(AsWritten, e) != Some(3)
    ensures FirstMatch(AsWritten, e).Some? ==> AsWritten[FirstMatch(AsWritten, e).value] != CustomExceptionArm
  {
  }

  /** Consequently a business exception is answered with status 500, the
      fixed "Internal Server Error" message, and "{data}: {message}" as data;
      its own status and message are lost. */
  lemma BusinessExceptionBecomes500(message: Value, data: Value, status: int)
    ensures var e := NewCustomException(message, data, status);
            var tag := if Truthy(data) then Str(data) else "BUSINESS_ERROR";
            ReadEnvelope(Middleware(Raised(e)).response)
              == Some(Envelope(false, InternalMessage, JsonStr(tag + ": " + Str(message)), 500))
  {
    MiddlewareClassification(NewCustomException(message, data, status));
  }

  /** The middleware with the business-exception clause moved ahead of the
      catch-all. */
  function CorrectedMiddleware(result: HandlerResult): Outcome
  {
    Handle(Corrected, result)
  }

  /** With the corrected order a business exception is logged as a custom
      error and answered with its own status, message and tag. A message or
      tag that `json.dumps` cannot encode makes building the response raise
      `TypeError`, whatever the status; otherwise a status outside 100..599
      makes it raise `ValueError`. */
  lemma CorrectedBusinessException(message: Value, data: Value, status: int)
    ensures var e := NewCustomException(message, data, status);
            CorrectedMiddleware(Raised(e)).log == [LogEntry(Warning, "Custom Error: " + ExcStr(e))]
    ensures var e := NewCustomException(message, data, status);
            Jsonable(message) && Jsonable(e.data) && IsStatusCode(status) ==>
              ReadEnvelope(CorrectedMiddleware(Raised(e)).response)
              == Some(Envelope(false, message, e.data, status))
    ensures var e := NewCustomException(message, data, status);
            !Jsonable(message) ==>
              CorrectedMiddleware(Raised(e)) == Propagated(EncodeError(message), CorrectedMiddleware(Raised(e)).log)
    ensures var e := NewCustomException(message, data, status);
            Jsonable(message) && !Jsonable(e.data) ==>
              CorrectedMiddleware(Raised(e)) == Propagated(EncodeError(e.data), CorrectedMiddleware(Raised(e)).log)
    ensures var e := NewCustomException(message, data, status);
            Jsonable(message) && Jsonable(e.data) && !IsStatusCode(status) ==>
              CorrectedMiddleware(Raised(e)) == Propagated(StatusValueError, CorrectedMiddleware(Raised(e)).log)
  {
  }

  /** The correction changes nothing else: on a normal return and on every
      exception other than a business exception both orders agree. */
  lemma CorrectionChangesOnlyBusinessExceptions(result: HandlerResult)
    requires !(result.Raised? && result.ex.CustomException?)
    ensures CorrectedMiddleware(result) == Middleware(result)
  {
  }

  /** The business exception "Duplicate permission" with status 409, as
      written: answered with 500 and the exception's text as data. */
  lemma DuplicatePermissionAsWritten()
    ensures ReadEnvelope(Middleware(Raised(NewCustomException(PyStr("Duplicate permission"), status := 409))).response)
            == Some(Envelope(false, InternalMessage, JsonStr("BUSINESS_ERROR: Duplicate permission"), 500))
  {
    var e := NewCustomException(PyStr("Duplicate permission"), status := 409);
    assert e == CustomException(PyStr("Duplicate permission"), DefaultData, 409);
    var text := "BUSINESS_ERROR" + ": " + "Duplicate permission";
    assert text == "BUSINESS_ERROR: Duplicate permission";
    MiddlewareClassification(e);
    assert ExcStr(e) == text;
  }

  /** The same exception with the corrected order: answered with 409, its
      message, and the default tag. */
  lemma DuplicatePermissionCorrected()
    ensures ReadEnvelope(CorrectedMiddleware(Raised(NewCustomException(PyStr("Duplicate permission"), status := 409))).response)
            == Some(Envelope(false, PyStr("Duplicate permission"), PyStr("BUSINESS_ERROR"), 409))
  {
    CorrectedBusinessException(PyStr("Duplicate permission"), PyNone, 409);
  }
}
