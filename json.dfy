/** JSON documents as Python's json module produces them, and the Python exceptions the core's
    own dictionary handling can raise on them. */
module JsonValues {
  import opened Wrappers
  import Strings

  /** A decoded JSON value. Objects are keyed maps: the key order of a Python dict is not kept. */
  datatype Json =
    | JNull
    | JBool(b: bool)
    | JNum(n: int)
    | JStr(s: string)
    | JArr(items: seq<Json>)
    | JObj(fields: map<string, Json>)

  /** A raised exception other than WorkflowExecutionError. */
  datatype Exn =
    | KeyError(key: string)          // d[key] on a dict without that key
    | TypeError(message: string)     // subscripting, iterating or assigning into the wrong kind of value
    | DecodeError(message: string)   // json.loads of text that is not JSON
    | External(text: string)         // raised by a collaborator: an HTTP status error, a network or model failure
    | Exception(message: string)     // a plain Exception raised by the core itself

  /** str(e) */
  function ExnText(e: Exn): string
  {
    match e
    case KeyError(k) => "'" + k + "'"
    case TypeError(m) => m
    case DecodeError(m) => m
    case External(t) => t
    case Exception(m) => m
  }

  /** type(j).__name__ */
  function TypeName(j: Json): string
  {
    match j
    case JNull => "NoneType"
    case JBool(_) => "bool"
    case JNum(_) => "int"
    case JStr(_) => "str"
    case JArr(_) => "list"
    case JObj(_) => "dict"
  }

  /** j[key] for a string key. */
  function Get(j: Json, key: string): (r: Result<Json, Exn>)
    ensures r.Success? <==> j.JObj? && key in j.fields
    ensures r.Success? ==> r.value == j.fields[key]
    ensures j.JObj? && key !in j.fields ==> r == Failure(KeyError(key))
  {
    match j
    case JObj(m) => if key in m then Success(m[key]) else Failure(KeyError(key))
    case JArr(_) => Failure(TypeError("list indices must be integers or slices, not str"))
    case JStr(_) => Failure(TypeError("string indices must be integers, not 'str'"))
    case _ => Failure(TypeError("'" + TypeName(j) + "' object is not subscriptable"))
  }

  /** bool(j) */
  predicate Truthy(j: Json)
  {
    match j
    case JNull => false
    case JBool(b) => b
    case JNum(n) => n != 0
    case JStr(s) => s != ""
    case JArr(xs) => xs != []
    case JObj(m) => m != map[]
  }

  /** The elements a loop `for x in j:` visits when its body starts by looking up a string key
      in x. A list gives its items. An empty dict or string gives none. A non-empty dict or
      string yields strings, and looking a key up in a string raises TypeError before anything
      else happens, so that case fails at once. Any other value is not iterable. */
  function KeyedItems(j: Json): (r: Result<seq<Json>, Exn>)
    ensures j.JArr? ==> r == Success(j.items)
  {
    match j
    case JArr(xs) => Success(xs)
    case JObj(m) => if m == map[] then Success([]) else Failure(TypeError("string indices must be integers, not 'str'"))
    case JStr(s) => if s == "" then Success([]) else Failure(TypeError("string indices must be integers, not 'str'"))
    case _ => Failure(TypeError("'" + TypeName(j) + "' object is not iterable"))
  }

  /** str(j). Scalars and strings are rendered as Python does; the text of a list or a dict
      depends on the dict's insertion order, which this model does not keep, so it is given by
      the caller's `show`. */
  function PyStr(j: Json, show: Json -> string): (r: string)
    ensures j.JStr? ==> r == j.s
  {
    match j
    case JNull => "None"
    case JBool(b) => if b then "True" else "False"
    case JNum(n) => Strings.IntToString(n)
    case JStr(s) => s
    case _ => show(j)
  }
}
