/**
 * Parsed JSON responses as the fetch script sees them after `r.json()`,
 * with the little of Python's semantics the script relies on: truthiness
 * (`x or default`), `isinstance(x, (int, float))` and the `int()` and
 * `float()` conversions. Converting a string is Python's own number
 * parsing; it is a parameter here.
 */
module Json {
  import opened Wrappers
  import opened Dicts

  datatype Json =
    | JNull
    | JBool(b: bool)
    | JInt(i: int)
    | JFloat(f: real)
    | JStr(s: string)
    | JArr(items: seq<Json>)
    | JObj(fields: Dict<Json>)

  /** The exceptions the conversions raise. */
  datatype PyError = AttributeError | TypeError | ValueError

  /** What `json.loads` produces: no object repeats a key. */
  predicate Decoded(j: Json)
  {
    match j
    case JArr(items) => forall i :: 0 <= i < |items| ==> Decoded(items[i])
    case JObj(fields) => DistinctKeys(fields) && forall i :: 0 <= i < |fields| ==> Decoded(fields[i].1)
    case _ => true
  }

  /** `bool(j)`. */
  predicate Truthy(j: Json)
  {
    match j
    case JNull => false
    case JBool(b) => b
    case JInt(i) => i != 0
    case JFloat(f) => f != 0.0
    case JStr(s) => s != ""
    case JArr(items) => items != []
    case JObj(fields) => fields != []
  }

  /** `j or default`. */
  function Or(j: Json, default: Json): (r: Json)
    ensures Truthy(j) ==> r == j
    ensures !Truthy(j) ==> r == default
  {
    if Truthy(j) then j else default
  }

  /** A value read out of a decoded object is itself decoded. */
  lemma GetDecoded(fields: Dict<Json>, key: string, default: Json)
    requires Decoded(JObj(fields)) && Decoded(default)
    ensures Decoded(GetOr(fields, key, default))
  {
    if HasKey(fields, key) {
      var i :| 0 <= i < |fields| && fields[i] == (key, Lookup(fields, key).value);
      assert Decoded(fields[i].1);
    }
  }

  /** `isinstance(j, (int, float))`; a JSON boolean is a Python `bool`, which is an `int`. */
  predicate IsNumber(j: Json)
  {
    j.JBool? || j.JInt? || j.JFloat?
  }

  /** `float(j)` of a number. */
  function AsReal(j: Json): real
    requires IsNumber(j)
  {
    match j
    case JBool(b) => if b then 1.0 else 0.0
    case JInt(i) => i as real
    case JFloat(f) => f
  }

  /** `int(x)` of a float: the integer part, rounding toward zero. */
  function Truncate(x: real): (n: int)
    ensures x >= 0.0 ==> n as real <= x < n as real + 1.0
    ensures x < 0.0 ==> n as real - 1.0 < x <= n as real
  {
    if x >= 0.0 then x.Floor else -((-x).Floor)
  }

  /** `float(j)`; `parse` is Python's reading of a numeric string. */
  function PyFloat(j: Json, parse: string -> Option<real>): (r: Result<real, PyError>)
    ensures IsNumber(j) ==> r == Success(AsReal(j))
    ensures j.JStr? ==> (r.Success? <==> parse(j.s).Some?)
    ensures j.JStr? && parse(j.s).Some? ==> r == Success(parse(j.s).value)
    ensures j.JStr? && parse(j.s).None? ==> r == Failure(ValueError)
    ensures (j.JNull? || j.JArr? || j.JObj?) ==> r == Failure(TypeError)
  {
    match j
    case JStr(s) => if parse(s).Some? then Success(parse(s).value) else Failure(ValueError)
    case JNull => Failure(TypeError)
    case JArr(_) => Failure(TypeError)
    case JObj(_) => Failure(TypeError)
    case _ => Success(AsReal(j))
  }

  /** `int(j)`; `parse` is Python's reading of an integer string. */
  function PyInt(j: Json, parse: string -> Option<int>): (r: Result<int, PyError>)
    ensures IsNumber(j) ==> r.Success? && -1.0 < r.value as real - AsReal(j) < 1.0
    ensures j.JInt? ==> r == Success(j.i)
    ensures j.JBool? ==> r == Success(if j.b then 1 else 0)
    ensures j.JFloat? ==> r == Success(Truncate(j.f))
    ensures j.JStr? ==> (r.Success? <==> parse(j.s).Some?)
    ensures j.JStr? && parse(j.s).Some? ==> r == Success(parse(j.s).value)
    ensures j.JStr? && parse(j.s).None? ==> r == Failure(ValueError)
    ensures (j.JNull? || j.JArr? || j.JObj?) ==> r == Failure(TypeError)
  {
    match j
    case JBool(b) => Success(if b then 1 else 0)
    case JInt(i) => Success(i)
    case JFloat(f) =>
      var n := Truncate(f);
      assert -1.0 < n as real - f < 1.0;
      Success(n)
    case JStr(s) => if parse(s).Some? then Success(parse(s).value) else Failure(ValueError)
    case _ => Failure(TypeError)
  }
}
