/** JSON values as the Python code sees them after json.load / response.json(),
    and the handful of Python operations the TikTok core applies to them:
    truthiness, dict.get with a default, the `in` operator and subscripting.
    Each operation either yields a value or raises, as Python does. */
module PyJson {

  datatype Option<+T> = None | Some(value: T)

  /** A decoded JSON document. JSON objects become dicts keyed by strings. */
  datatype Json =
    | JNull
    | JBool(b: bool)
    | JNum(n: real)
    | JStr(s: string)
    | JArr(items: seq<Json>)
    | JObj(fields: map<string, Json>)

  /** The Python exceptions a step of the core can raise. */
  datatype Exc =
    | AttributeError            // `.get` on a value that is not a dict
    | TypeError                 // `in` or `[...]` on a value that does not support it
    | KeyError(key: string)     // `d[key]` on a dict without that key
    | HttpError(message: string)     // raise_for_status on a 4xx/5xx reply
    | RequestError(message: string)  // the request never got a reply
    | JsonDecodeError           // response.json() on a body that is not JSON
    | FileNotFound              // open(path, "w") in a directory that does not exist

  /** The outcome of a Python expression or call: a value, or an exception that propagates. */
  datatype Py<+T> = Ok(value: T) | Raise(exc: Exc) {
    predicate IsFailure() { Raise? }
    function PropagateFailure<U>(): Py<U>
      requires Raise?
    {
      Raise(exc)
    }
    function Extract(): T
      requires Ok?
    {
      value
    }
  }

  const EmptyDict: Json := JObj(map[])

  /** Python's bool(v): None, False, zero and empty containers are falsy. */
  predicate Truthy(v: Json) {
    match v
    case JNull => false
    case JBool(b) => b
    case JNum(n) => n != 0.0
    case JStr(s) => s != ""
    case JArr(items) => items != []
    case JObj(fields) => fields != map[]
  }

  /** The value reached by following `path` through nested dicts, if every level is a dict
      that holds the next key. */
  function Lookup(v: Json, path: seq<string>): Option<Json>
    decreases |path|
  {
    if path == [] then Some(v)
    else match v
      case JObj(m) => if path[0] in m then Lookup(m[path[0]], path[1..]) else None
      case _ => None
  }

  /** Whether the chain `v.get(path[0], {}).get(path[1], {})...` raises: it does exactly when
      some value it calls `.get` on, the start or a present intermediate level, is not a dict. */
  predicate GetChainRaises(v: Json, path: seq<string>)
    decreases |path|
  {
    path != [] && (!v.JObj? || (path[0] in v.fields && GetChainRaises(v.fields[path[0]], path[1..])))
  }

  /** `v.get(key, default)`. */
  function Get(v: Json, key: string, default: Json): (r: Py<Json>)
    ensures v.JObj? && key in v.fields ==> r == Ok(v.fields[key])
    ensures v.JObj? && key !in v.fields ==> r == Ok(default)
    ensures !v.JObj? ==> r == Raise(AttributeError)
  {
    match v
    case JObj(m) => if key in m then Ok(m[key]) else Ok(default)
    case _ => Raise(AttributeError)
  }

  /** `t in s` for two strings: whether `t` occurs somewhere in `s`. */
  function HasSubstring(s: string, t: string): (r: bool)
    ensures r <==> exists i :: 0 <= i <= |s| && t <= s[i..]
    decreases |s|
  {
    if t <= s then
      assert t <= s[0..];
      true
    else if s == [] then
      false
    else
      var rest := HasSubstring(s[1..], t);
      assert forall i :: 1 <= i <= |s| ==> s[1..][i - 1..] == s[i..];
      rest
  }

  /** `key in container` for a string key. */
  function Contains(container: Json, key: string): (r: Py<bool>)
    ensures container.JObj? ==> r == Ok(key in container.fields)
    ensures container.JArr? ==> r == Ok(JStr(key) in container.items)
    ensures container.JStr? ==> r.Ok? && (r.value <==> exists i :: 0 <= i <= |container.s| && key <= container.s[i..])
    ensures container.JNull? || container.JBool? || container.JNum? ==> r == Raise(TypeError)
  {
    match container
    case JObj(m) => Ok(key in m)
    case JArr(items) => Ok(JStr(key) in items)
    case JStr(s) => Ok(HasSubstring(s, key))
    case _ => Raise(TypeError)
  }

  /** `v[key]` for a string key. */
  function Index(v: Json, key: string): (r: Py<Json>)
    ensures r.Ok? <==> v.JObj? && key in v.fields
    ensures r.Ok? ==> r.value == v.fields[key]
    ensures v.JObj? && key !in v.fields ==> r == Raise(KeyError(key))
    ensures !v.JObj? ==> r == Raise(TypeError)
  {
    match v
    case JObj(m) => if key in m then Ok(m[key]) else Raise(KeyError(key))
    case _ => Raise(TypeError)
  }
}
