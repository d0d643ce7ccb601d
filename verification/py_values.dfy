/** The few Python values the error pipeline passes around, with Python's
    truthiness and `str()` on them. */
module PyValues {

  /** A Python value. The scalars are modelled exactly; any other object
      (a list, a dict, a model instance, ...) is `PyObject`, which carries its
      truth value and its `str()` form instead of computing them. It also
      carries whether `json.dumps` with Django's encoder can encode it, and
      the type name the encoder reports when it cannot (the object's own
      type, or that of the first part it cannot encode). */
  datatype Value =
    | PyNone
    | PyBool(b: bool)
    | PyInt(i: int)
    | PyStr(s: string)
    | PyObject(typeName: string, truthy: bool, text: string, jsonable: bool)

  /** `bool(v)`: `None`, `False`, `0` and `""` are the falsy scalars. */
  predicate Truthy(v: Value)
  {
    match v
    case PyNone => false
    case PyBool(b) => b
    case PyInt(i) => i != 0
    case PyStr(s) => s != ""
    case PyObject(_, t, _, _) => t
  }

  /** Whether `json.dumps(v, cls=DjangoJSONEncoder)` succeeds: every scalar
      encodes; another object encodes when its flag says so. */
  predicate Jsonable(v: Value)
  {
    !v.PyObject? || v.jsonable
  }

  /** A value a JSON response can hold. */
  type JsonValue = v: Value | Jsonable(v) witness PyNone

  /** A Python `str`, which always encodes. */
  function JsonStr(s: string): JsonValue
  {
    PyStr(s)
  }

  /** `str(v)`, which is also what an f-string substitutes for `{v}`. */
  function Str(v: Value): string
  {
    match v
    case PyNone => "None"
    case PyBool(b) => if b then "True" else "False"
    case PyInt(i) => IntToDecimal(i)
    case PyStr(s) => s
    case PyObject(_, _, text, _) => text
  }

  predicate IsDigit(c: char)
  {
    '0' <= c <= '9'
  }

  function DigitChar(d: nat): (c: char)
    requires d < 10
    ensures IsDigit(c)
  {
    "0123456789"[d]
  }

  function DigitValue(c: char): (d: nat)
    requires IsDigit(c)
    ensures d < 10
  {
    (c as int - '0' as int) as nat
  }

  /** The decimal digits of `n`, most significant first, without leading zeros. */
  function Digits(n: nat): (r: string)
    ensures |r| >= 1
    ensures forall i :: 0 <= i < |r| ==> IsDigit(r[i])
    ensures |r| > 1 ==> r[0] != '0'
  {
    if n < 10 then [DigitChar(n)] else Digits(n / 10) + [DigitChar(n % 10)]
  }

  /** Reads a string of decimal digits back as a number. */
  function ParseDigits(s: string): nat
    requires forall i :: 0 <= i < |s| ==> IsDigit(s[i])
  {
    if s == [] then 0 else ParseDigits(s[..|s| - 1]) * 10 + DigitValue(s[|s| - 1])
  }

  /** `str(i)` for a Python `int`: an optional minus sign and the digits of |i|. */
  function IntToDecimal(i: int): string
  {
    if i < 0 then "-" + Digits(-i) else Digits(i)
  }

  /** The decimal rendering loses nothing: reading the digits back gives `n`. */
  lemma {:induction false} DigitsRoundTrip(n: nat)
    ensures ParseDigits(Digits(n)) == n
  {
    if n >= 10 {
      var s := Digits(n);
      assert s[..|s| - 1] == Digits(n / 10);
      DigitsRoundTrip(n / 10);
    }
  }
}
