/** The slice of Python's value semantics that the Odyssey module relies on:
    JSON values as `response.json()` produces them, and the behaviour of
    `key in v`, `v[key]`, `v.get(key, default)`, `a or b` and truthiness
    on them, including the exceptions these raise. */
module PyValues {

  /** A parsed JSON document. Numbers are modelled as integers only. */
  datatype Json =
    | JNull
    | JBool(b: bool)
    | JInt(i: int)
    | JStr(s: string)
    | JList(items: seq<Json>)
    | JObject(fields: map<string, Json>)

  /** The Python exceptions the modelled expressions can raise. */
  datatype PyError = KeyError(key: string) | TypeError | AttributeError | ZeroDivisionError

  /** Either a value or a raised exception. */
  datatype Result<+T> = Ok(value: T) | Raise(error: PyError) {
    predicate IsFailure() { Raise? }

    function PropagateFailure<U>(): Result<U>
      requires Raise?
    {
      Raise(error)
    }

    function Extract(): T
      requires Ok?
    {
      value
    }
  }

  datatype Option<+T> = None | Some(value: T)

  /** `{}` */
  const EmptyObject: Json := JObject(map[])

  /** Python's `bool(v)`. */
  predicate Truthy(v: Json) {
    match v
    case JNull => false
    case JBool(b) => b
    case JInt(i) => i != 0
    case JStr(s) => s != ""
    case JList(items) => items != []
    case JObject(fields) => fields != map[]
  }

  /** `needle in hay` for two Python strings. */
  predicate IsSubstring(needle: string, hay: string)
    decreases |hay|
  {
    needle <= hay || (hay != [] && IsSubstring(needle, hay[1..]))
  }

  /** `key in container` for a string `key`: key membership for a dict,
      element membership for a list, substring for a string; any other
      operand raises TypeError. */
  function Contains(container: Json, key: string): (r: Result<bool>)
    ensures r.Raise? <==> !(container.JObject? || container.JList? || container.JStr?)
    ensures r.Raise? ==> r.error == TypeError
  {
    match container
    case JObject(fields) => Ok(key in fields)
    case JList(items) => Ok(JStr(key) in items)
    case JStr(s) => Ok(IsSubstring(key, s))
    case _ => Raise(TypeError)
  }

  /** `v[key]` for a string `key`: a dict lookup that raises KeyError when
      the key is absent; every other operand raises TypeError. */
  function Subscript(v: Json, key: string): (r: Result<Json>)
    ensures r.Ok? <==> v.JObject? && key in v.fields
    ensures r.Ok? ==> r.value == v.fields[key]
  {
    match v
    case JObject(fields) => if key in fields then Ok(fields[key]) else Raise(KeyError(key))
    case _ => Raise(TypeError)
  }

  /** `v.get(key, default)`: only dicts have `get`; anything else raises
      AttributeError. */
  function Get(v: Json, key: string, default: Json): (r: Result<Json>)
    ensures r.Ok? <==> v.JObject?
    ensures r.Raise? ==> r.error == AttributeError
  {
    match v
    case JObject(fields) => Ok(if key in fields then fields[key] else default)
    case _ => Raise(AttributeError)
  }

  /** `a or b` */
  function Or(a: Json, b: Json): Json {
    if Truthy(a) then a else b
  }

  /** The integer a value stands for in arithmetic (`bool` is a subclass
      of `int` in Python); None for values that arithmetic rejects. */
  function Numeric(v: Json): Option<int> {
    match v
    case JInt(i) => Some(i)
    case JBool(b) => Some(if b then 1 else 0)
    case _ => None
  }
}
