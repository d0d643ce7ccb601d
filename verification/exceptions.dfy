/** The exceptions the error pipeline distinguishes, the class hierarchy they
    live in, and the business exception `CustomException`. */
module Exceptions {
  import opened Wrappers
  import opened PyValues

  /** The exception classes the middleware names in its `except` clauses,
      plus any other class, identified by name. `OtherClass(_, true)` is a
      subclass of `Exception` (`ValueError`, `KeyError`, ...);
      `OtherClass(_, false)` derives from `BaseException` only
      (`KeyboardInterrupt`, `SystemExit`, ...). */
  datatype Class =
    | BaseExceptionClass
    | ExceptionClass
    | PermissionDeniedClass
    | ValidationErrorClass
    | CustomExceptionClass
    | OtherClass(name: string, isException: bool)

  /** A raised exception. The framework exceptions and the other classes
      carry their `str()` text; `CustomException` carries the three
      attributes its constructor sets. */
  datatype Exc =
    | PermissionDenied(text: string)
    | ValidationError(text: string)
    | CustomException(message: Value, data: Value, status: int)
    | OtherException(name: string, isException: bool, text: string)

  function ClassOf(e: Exc): Class
  {
    match e
    case PermissionDenied(_) => PermissionDeniedClass
    case ValidationError(_) => ValidationErrorClass
    case CustomException(_, _, _) => CustomExceptionClass
    case OtherException(name, isException, _) => OtherClass(name, isException)
  }

  /** The classes `c` derives from, itself included: its method resolution
      order read as a set. Every class here derives from `BaseException`;
      `CustomException` and the two framework exceptions derive from
      `Exception`. */
  function Ancestors(c: Class): set<Class>
  {
    match c
    case BaseExceptionClass => {BaseExceptionClass}
    case ExceptionClass => {ExceptionClass, BaseExceptionClass}
    case PermissionDeniedClass => {PermissionDeniedClass, ExceptionClass, BaseExceptionClass}
    case ValidationErrorClass => {ValidationErrorClass, ExceptionClass, BaseExceptionClass}
    case CustomExceptionClass => {CustomExceptionClass, ExceptionClass, BaseExceptionClass}
    case OtherClass(_, isException) =>
      if isException then {c, ExceptionClass, BaseExceptionClass} else {c, BaseExceptionClass}
  }

  predicate IsSubclass(c: Class, d: Class)
  {
    d in Ancestors(c)
  }

  /** `isinstance(e, c)`: what an `except c` clause tests. */
  predicate IsInstance(e: Exc, c: Class)
  {
    IsSubclass(ClassOf(e), c)
  }

  /** The subclass relation is a partial order: reflexive, transitive and
      antisymmetric. */
  lemma SubclassIsPartialOrder(a: Class, b: Class, c: Class)
    ensures IsSubclass(a, a)
    ensures IsSubclass(a, b) && IsSubclass(b, c) ==> IsSubclass(a, c)
    ensures IsSubclass(a, b) && IsSubclass(b, a) ==> a == b
  {
  }

  /** `CustomException` is declared as a subclass of `Exception`, so every
      business exception is also caught by `except Exception`. */
  lemma CustomExceptionIsAnException(e: Exc)
    ensures IsInstance(e, CustomExceptionClass) <==> e.CustomException?
    ensures IsInstance(e, CustomExceptionClass) ==> IsInstance(e, ExceptionClass)
  {
  }

  /** The classification tag a business exception gets when none is given. */
  const DefaultData: Value := PyStr("BUSINESS_ERROR")

  /** `CustomException(message, data=None, status=400)`: the message and the
      status are kept as given; a falsy `data` (omitted, `None`, `""`, `0`,
      ...) is replaced by "BUSINESS_ERROR" (Python's `data or ...`). */
  function NewCustomException(message: Value, data: Value := PyNone, status: int := 400): (e: Exc)
    ensures e.CustomException?
    ensures e.message == message
    ensures e.status == status
    ensures Truthy(data) ==> e.data == data
    ensures !Truthy(data) ==> e.data == DefaultData
  {
    CustomException(message, if Truthy(data) then data else DefaultData, status)
  }

  /** `str(ex)`. For a business exception it is "{data}: {message}": the
      tag's text, a colon and a space, then the message's text. Any other
      exception reads as its own text. */
  function ExcStr(e: Exc): (r: string)
    ensures !e.CustomException? ==> r == e.text
    ensures e.CustomException? ==>
              var tag := Str(e.data);
              && |r| == |tag| + 2 + |Str(e.message)|
              && r[..|tag|] == tag
              && r[|tag|..|tag| + 2] == ": "
              && r[|tag| + 2..] == Str(e.message)
  {
    match e
    case PermissionDenied(text) => text
    case ValidationError(text) => text
    case CustomException(message, data, _) => Str(data) + ": " + Str(message)
    case OtherException(_, _, text) => text
  }

  /** A constructed business exception always has a truthy tag, and
      constructing again from the stored attributes changes nothing. */
  lemma CustomExceptionDataStable(message: Value, data: Value, status: int)
    ensures Truthy(NewCustomException(message, data, status).data)
    ensures var e := NewCustomException(message, data, status);
            NewCustomException(e.message, e.data, e.status) == e
  {
  }

  /** The defaults: a business exception built from a message alone has tag
      "BUSINESS_ERROR", status 400, and reads "BUSINESS_ERROR: <message>". */
  lemma CustomExceptionDefaults(message: Value)
    ensures NewCustomException(message) == CustomException(message, DefaultData, 400)
    ensures ExcStr(NewCustomException(message)) == "BUSINESS_ERROR: " + Str(message)
  {
  }

  /** `str()` of a business exception starts with the tag's text, followed by
      ": " and the message's text. */
  lemma CustomExceptionStrShape(message: Value, data: Value, status: int)
    ensures var e := NewCustomException(message, data, status);
            var tag := if Truthy(data) then Str(data) else "BUSINESS_ERROR";
            && ExcStr(e)[..|tag|] == tag
            && ExcStr(e)[|tag|..|tag| + 2] == ": "
            && ExcStr(e)[|tag| + 2..] == Str(message)
  {
  }

  /** The position of the first ':' in `s` at or after `from`. */
  function FirstColonFrom(s: string, from: nat): (r: Option<nat>)
    requires from <= |s|
    decreases |s| - from
  {
    if from == |s| then None
    else if s[from] == ':' then Some(from)
    else FirstColonFrom(s, from + 1)
  }

  /** `str()` of a business exception can be read back: when the tag's text
      holds no ':', the first ':' of the string ends the tag, and what
      follows ": " is the message's text. */
  lemma TagRecoverable(e: Exc)
    requires e.CustomException?
    requires ':' !in Str(e.data)
    ensures FirstColonFrom(ExcStr(e), 0) == Some(|Str(e.data)|)
    ensures ExcStr(e)[..|Str(e.data)|] == Str(e.data)
    ensures ExcStr(e)[|Str(e.data)| + 2..] == Str(e.message)
  {
    ColonScan(e, 0);
  }

  lemma {:induction false} ColonScan(e: Exc, i: nat)
    requires e.CustomException?
    requires ':' !in Str(e.data)
    requires i <= |Str(e.data)|
    ensures FirstColonFrom(ExcStr(e), i) == Some(|Str(e.data)|)
    decreases |Str(e.data)| - i
  {
    var r := ExcStr(e);
    var tag := Str(e.data);
    if i == |tag| {
      assert r[|tag|..|tag| + 2][0] == r[i];
    } else {
      assert r[..|tag|][i] == r[i];
      assert tag[i] != ':';
      ColonScan(e, i + 1);
    }
  }
}
