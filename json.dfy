/**
 * JSON values as the webhook delivers them, and the Python operations the
 * handlers apply to them (`v[key]`, `v[-1]`, `v.get(key)`), each with the
 * exception Python raises when the value has the wrong shape.
 */
module Json {
  import opened Wrappers

  datatype Value =
    | Null
    | Bool(b: bool)
    | Num(n: real)
    | Str(s: string)
    | Arr(items: seq<Value>)
    | Obj(fields: map<string, Value>)

  /** The built-in exceptions the handlers can raise on a malformed payload. */
  datatype PyError = KeyError | TypeError | IndexError | AttributeError

  /** A decoded JSON object, as the bus hands it to the handlers. */
  type EventData = map<string, Value>

  /** `d[key]` on a dict. */
  function Lookup(d: EventData, key: string): (r: Result<Value, PyError>)
    ensures r.Success? <==> key in d
    ensures r.Success? ==> r.value == d[key]
    ensures r.Failure? ==> r.error == KeyError
  {
    if key in d then Success(d[key]) else Failure(KeyError)
  }

  /**
   * `v[key]` with a string key: only a dict can answer; a missing key is a
   * KeyError, a list, string, number, bool or None is a TypeError.
   */
  function Index(v: Value, key: string): (r: Result<Value, PyError>)
    ensures r.Success? <==> v.Obj? && key in v.fields
    ensures r.Success? ==> r.value == v.fields[key]
    ensures v.Obj? && key !in v.fields ==> r == Failure(KeyError)
    ensures !v.Obj? ==> r == Failure(TypeError)
  {
    match v
    case Obj(fields) => if key in fields then Success(fields[key]) else Failure(KeyError)
    case _ => Failure(TypeError)
  }

  /**
   * `v[-1]`: the last element of a non-empty list, the last character of a
   * non-empty string; an empty one is an IndexError, a dict has no key -1
   * (JSON keys are strings), anything else is not subscriptable.
   */
  function Last(v: Value): (r: Result<Value, PyError>)
    ensures r.Success? <==> (v.Arr? && |v.items| > 0) || (v.Str? && |v.s| > 0)
    ensures r.Success? && v.Arr? ==> r.value == v.items[|v.items| - 1]
    ensures r.Success? && v.Str? ==> r.value == Str([v.s[|v.s| - 1]])
    ensures (v.Arr? && |v.items| == 0) || (v.Str? && |v.s| == 0) ==> r == Failure(IndexError)
    ensures v.Obj? ==> r == Failure(KeyError)
    ensures !(v.Arr? || v.Str? || v.Obj?) ==> r == Failure(TypeError)
  {
    match v
    case Arr(items) => if |items| > 0 then Success(items[|items| - 1]) else Failure(IndexError)
    case Str(s) => if |s| > 0 then Success(Str([s[|s| - 1]])) else Failure(IndexError)
    case Obj(_) => Failure(KeyError)
    case _ => Failure(TypeError)
  }

  /** `(x := fields.get(key)) is not None`: the key is present with a non-null value. */
  function GetNotNone(fields: map<string, Value>, key: string): (r: Option<Value>)
    ensures r.Some? <==> key in fields && fields[key] != Null
    ensures r.Some? ==> r.value == fields[key]
  {
    if key in fields && fields[key] != Null then Some(fields[key]) else None
  }
}
