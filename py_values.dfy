/**
 * The slice of Python's runtime that the token analyzer relies on: decoded JSON
 * values, `dict.get`, subscription, numeric comparison and addition, truthiness
 * and hashing into a set. Operations that raise in Python return `Err` here.
 */
module PyValues {

  /** The exceptions the modelled code can raise. */
  datatype PyError = TypeError | KeyError | AttributeError

  datatype Option<+T> = None | Some(value: T)

  /** The outcome of a Python expression: a value, or the exception it raised. */
  datatype Result<+T> = Ok(value: T) | Err(error: PyError) {
    predicate IsFailure() {
      Err?
    }

    function PropagateFailure<U>(): Result<U>
      requires Err?
    {
      Err(error)
    }

    function Extract(): T
      requires Ok?
    {
      value
    }
  }

  /**
   * A value as Python's json module decodes it. JSON integers and floats are
   * both `JNum`; numbers are exact reals.
   */
  datatype Json =
    | JNull
    | JBool(b: bool)
    | JNum(r: real)
    | JStr(s: string)
    | JArr(items: seq<Json>)
    | JObj(fields: map<string, Json>)

  /** The value of a Python number; `bool` is an `int` subclass (True == 1). */
  function NumOf(j: Json): (r: Option<real>)
    ensures r.Some? <==> j.JNum? || j.JBool?
    ensures j.JNum? ==> r == Some(j.r)
  {
    match j
    case JNum(x) => Some(x)
    case JBool(b) => Some(if b then 1.0 else 0.0)
    case _ => None
  }

  /** Python's `bool(j)`: null, false, zero and empty containers are falsy. */
  predicate Truthy(j: Json) {
    match j
    case JNull => false
    case JBool(b) => b
    case JNum(x) => x != 0.0
    case JStr(s) => s != ""
    case JArr(xs) => xs != []
    case JObj(f) => f != map[]
  }

  /** The value at `key`, or `dflt` when absent, in the dictionary `j`. */
  function FieldOr(j: map<string, Json>, key: string, dflt: Json): Json {
    if key in j then j[key] else dflt
  }

  /** Python's `j.get(key, dflt)`: only a dict has a `get` attribute. */
  function Get(j: Json, key: string, dflt: Json): (r: Result<Json>)
    ensures r.Ok? <==> j.JObj?
    ensures j.JObj? && key !in j.fields ==> r == Ok(dflt)
    ensures j.JObj? && key in j.fields ==> r == Ok(j.fields[key])
  {
    if j.JObj? then Ok(FieldOr(j.fields, key, dflt)) else Err(AttributeError)
  }

  /**
   * Python's `j[key]` with a string key: a dict raises KeyError for a missing
   * key; a list, string, number, bool or None raises TypeError.
   */
  function Lookup(j: Json, key: string): (r: Result<Json>)
    ensures r.Ok? <==> j.JObj? && key in j.fields
    ensures r.Ok? ==> r.value == j.fields[key]
    ensures j.JObj? && key !in j.fields ==> r == Err(KeyError)
  {
    match j
    case JObj(f) => if key in f then Ok(f[key]) else Err(KeyError)
    case _ => Err(TypeError)
  }

  /** Python's `j <= bound` for a float `bound`: only numbers compare with it. */
  function AtMost(j: Json, bound: real): (r: Result<bool>)
    ensures r.Ok? <==> NumOf(j).Some?
    ensures r.Ok? ==> (r.value <==> NumOf(j).value <= bound)
  {
    match NumOf(j)
    case Some(x) => Ok(x <= bound)
    case None => Err(TypeError)
  }

  /** Python's `j >= bound`: only numbers compare with a number. */
  function AtLeast(j: Json, bound: real): (r: Result<bool>)
    ensures r.Ok? <==> NumOf(j).Some?
    ensures r.Ok? ==> (r.value <==> NumOf(j).value >= bound)
  {
    match NumOf(j)
    case Some(x) => Ok(x >= bound)
    case None => Err(TypeError)
  }

  /**
   * Python's `a + b` on decoded JSON values: numbers add, strings and lists
   * concatenate, every other pairing raises TypeError.
   */
  function Add(a: Json, b: Json): (r: Result<Json>)
    ensures NumOf(a).Some? && NumOf(b).Some? ==> r == Ok(JNum(NumOf(a).value + NumOf(b).value))
    ensures r.Ok? ==> (NumOf(r.value).Some? <==> NumOf(a).Some? && NumOf(b).Some?)
  {
    if NumOf(a).Some? && NumOf(b).Some? then Ok(JNum(NumOf(a).value + NumOf(b).value))
    else if a.JStr? && b.JStr? then Ok(JStr(a.s + b.s))
    else if a.JArr? && b.JArr? then Ok(JArr(a.items + b.items))
    else Err(TypeError)
  }

  /**
   * What a hashable Python value is as a member of a set. Python identifies
   * True with 1 and False with 0 (equal and of equal hash), and an int with the
   * float of the same value.
   */
  datatype Key = KStr(s: string) | KNum(r: real) | KNull

  /** The set key of `j`; lists and dicts are unhashable and raise TypeError. */
  function HashKey(j: Json): (r: Result<Key>)
    ensures r.Err? <==> j.JArr? || j.JObj?
    ensures j.JStr? ==> r == Ok(KStr(j.s))
    ensures NumOf(j).Some? ==> r == Ok(KNum(NumOf(j).value))
    ensures j.JNull? ==> r == Ok(KNull)
  {
    match j
    case JNull => Ok(KNull)
    case JBool(b) => Ok(KNum(if b then 1.0 else 0.0))
    case JNum(x) => Ok(KNum(x))
    case JStr(s) => Ok(KStr(s))
    case _ => Err(TypeError)
  }
}
